/**
  The pre-scan that bounds the nesting of untrusted JSON before it reaches a recursive parser, against the JSON texts of
  sections 2, 4, 5 and 7 of RFC 8259, and the rejection of duplicate object keys.
*/
module JsonDepth {
  import opened Options

  // ----- JSON texts ------------------------------------------------------------------------------------------

  /** A character of a string literal as written: itself, or a backslash and the character after it. */
  datatype Unit = Plain(c: char) | Escaped(c: char)

  /**
    A JSON value as written. `Atom` is a number or a literal name; `Spaced` puts whitespace around a value; `blank` is
    the whitespace inside empty brackets.
  */
  datatype Doc =
    | Atom(text: string)
    | Text(units: seq<Unit>)
    | Spaced(before: string, inner: Doc, after: string)
    | Array(elements: seq<Doc>, blank: string)
    | Object(members: seq<Member>, blank: string)

  datatype Member = Member(before: string, key: seq<Unit>, between: string, value: Doc)

  /** No quote and no bracket: true of whitespace, numbers and literal names. */
  predicate Quiet(s: string)
  {
    forall i :: 0 <= i < |s| ==> s[i] !in {'"', '{', '[', '}', ']'}
  }

  predicate UnitsOk(units: seq<Unit>)
  {
    forall i :: 0 <= i < |units| && units[i].Plain? ==> units[i].c != '"' && units[i].c != '\\'
  }

  ghost predicate DocOk(d: Doc)
  {
    match d
    case Atom(text) => Quiet(text)
    case Text(units) => UnitsOk(units)
    case Spaced(before, inner, after) => Quiet(before) && Quiet(after) && DocOk(inner)
    case Array(elements, blank) => Quiet(blank) && forall e :: e in elements ==> DocOk(e)
    case Object(members, blank) =>
      Quiet(blank) && forall m :: m in members ==>
          Quiet(m.before) && UnitsOk(m.key) && Quiet(m.between) && DocOk(m.value)
  }

  function RenderUnits(units: seq<Unit>): string
  {
    if units == [] then ""
    else (if units[0].Plain? then [units[0].c] else ['\\', units[0].c]) + RenderUnits(units[1..])
  }

  function Quoted(units: seq<Unit>): string { "\"" + RenderUnits(units) + "\"" }

  function Render(d: Doc): string
  {
    match d
    case Atom(text) => text
    case Text(units) => Quoted(units)
    case Spaced(before, inner, after) => before + Render(inner) + after
    case Array(elements, blank) => "[" + (if elements == [] then blank else RenderElements(elements)) + "]"
    case Object(members, blank) => "{" + (if members == [] then blank else RenderMembers(members)) + "}"
  }

  function RenderElements(elements: seq<Doc>): string
  {
    if elements == [] then ""
    else Render(elements[0]) + (if |elements| == 1 then "" else "," + RenderElements(elements[1..]))
  }

  function RenderMembers(members: seq<Member>): string
  {
    if members == [] then ""
    else members[0].before + Quoted(members[0].key) + members[0].between + ":" + Render(members[0].value)
         + (if |members| == 1 then "" else "," + RenderMembers(members[1..]))
  }

  function Max(a: nat, b: nat): nat { if a >= b then a else b }

  /** How many arrays and objects are open at the deepest point. */
  function Depth(d: Doc): nat
  {
    match d
    case Atom(_) => 0
    case Text(_) => 0
    case Spaced(_, inner, _) => Depth(inner)
    case Array(elements, _) => 1 + ElementsDepth(elements)
    case Object(members, _) => 1 + MembersDepth(members)
  }

  function ElementsDepth(elements: seq<Doc>): nat
  {
    if elements == [] then 0 else Max(Depth(elements[0]), ElementsDepth(elements[1..]))
  }

  function MembersDepth(members: seq<Member>): nat
  {
    if members == [] then 0 else Max(Depth(members[0].value), MembersDepth(members[1..]))
  }

  // ----- the scan --------------------------------------------------------------------------------------------

  datatype Scan = Scan(depth: int, inString: bool, escaped: bool) | Refused

  function Step(s: Scan, c: char, cap: int): Scan
  {
    if s.Refused? then Refused
    else if s.inString then
      if s.escaped then s.(escaped := false)
      else if c == '\\' then s.(escaped := true)
      else if c == '"' then s.(inString := false)
      else s
    else if c == '"' then s.(inString := true)
    else if c == '{' || c == '[' then (if s.depth + 1 > cap then Refused else s.(depth := s.depth + 1))
    else if c == '}' || c == ']' then s.(depth := s.depth - 1)
    else s
  }

  function ScanAll(s: Scan, text: string, cap: int): Scan
    decreases |text|
  {
    if text == [] then s else ScanAll(Step(s, text[0], cap), text[1..], cap)
  }

  const START := Scan(0, false, false)

  /** `_check_depth`. */
  method CheckDepth(text: string, cap: int) returns (ok: bool)
    ensures ok == !ScanAll(START, text, cap).Refused?
  {
    var depth := 0;
    var inString := false;
    var escaped := false;
    for i := 0 to |text|
      invariant ScanAll(START, text, cap) == ScanAll(Scan(depth, inString, escaped), text[i..], cap)
    {
      var c := text[i];
      assert text[i..][1..] == text[i + 1..];
      if inString {
        if escaped {
          escaped := false;
        } else if c == '\\' {
          escaped := true;
        } else if c == '"' {
          inString := false;
        }
        continue;
      }
      if c == '"' {
        inString := true;
      } else if c == '{' || c == '[' {
        depth := depth + 1;
        if depth > cap {
          RefusedStays(text[i + 1..], cap);
          return false;
        }
      } else if c == '}' || c == ']' {
        depth := depth - 1;
      }
    }
    return true;
  }

  lemma {:induction false} RefusedStays(text: string, cap: int)
    ensures ScanAll(Refused, text, cap) == Refused
  {
    if text != [] { RefusedStays(text[1..], cap); }
  }

  lemma {:induction false} ScanConcat(s: Scan, a: string, b: string, cap: int)
    ensures ScanAll(s, a + b, cap) == ScanAll(ScanAll(s, a, cap), b, cap)
    decreases |a|
  {
    if a == [] {
      assert a + b == b;
    } else {
      assert (a + b)[0] == a[0] && (a + b)[1..] == a[1..] + b;
      ScanConcat(Step(s, a[0], cap), a[1..], b, cap);
    }
  }

  function Outside(depth: int): Scan { Scan(depth, false, false) }

  lemma {:induction false} ScanQuiet(depth: int, text: string, cap: int)
    requires Quiet(text)
    ensures ScanAll(Outside(depth), text, cap) == Outside(depth)
  {
    if text != [] {
      assert text[0] !in {'"', '{', '[', '}', ']'};
      assert Quiet(text[1..]);
      ScanQuiet(depth, text[1..], cap);
    }
  }

  lemma {:induction false} ScanUnits(depth: int, units: seq<Unit>, cap: int)
    requires UnitsOk(units)
    ensures ScanAll(Scan(depth, true, false), RenderUnits(units), cap) == Scan(depth, true, false)
    decreases |units|
  {
    if units != [] {
      var s := Scan(depth, true, false);
      var head := if units[0].Plain? then [units[0].c] else ['\\', units[0].c];
      assert UnitsOk(units[1..]);
      ScanUnits(depth, units[1..], cap);
      ScanConcat(s, head, RenderUnits(units[1..]), cap);
      if units[0].Plain? {
        ScanOne(s, units[0].c, cap);
      } else {
        assert head == ['\\'] + [units[0].c];
        ScanConcat(s, ['\\'], [units[0].c], cap);
        ScanOne(s, '\\', cap);
        ScanOne(Scan(depth, true, true), units[0].c, cap);
      }
    }
  }

  /** One character more. */
  lemma ScanOne(s: Scan, c: char, cap: int)
    ensures ScanAll(s, [c], cap) == Step(s, c, cap)
  {
    assert [c][1..] == [];
  }

  /** A string literal counts for nothing, whatever brackets, quotes and backslashes it contains. */
  lemma ScanQuoted(depth: int, units: seq<Unit>, cap: int)
    requires UnitsOk(units)
    ensures ScanAll(Outside(depth), Quoted(units), cap) == Outside(depth)
  {
    ScanUnits(depth, units, cap);
    ScanConcat(Outside(depth), "\"", RenderUnits(units) + "\"", cap);
    ScanConcat(Scan(depth, true, false), RenderUnits(units), "\"", cap);
    ScanOne(Outside(depth), '"', cap);
    ScanOne(Scan(depth, true, false), '"', cap);
    assert Quoted(units) == "\"" + (RenderUnits(units) + "\"");
  }

  /** Where the scan is after something that nests `deep` from depth `depth`. */
  function After(depth: int, deep: nat, cap: int): Scan
  {
    if deep > 0 && depth + deep > cap then Refused else Outside(depth)
  }

  lemma {:induction false} ScanDoc(d: Doc, depth: int, cap: int)
    requires DocOk(d) && depth <= cap
    ensures ScanAll(Outside(depth), Render(d), cap) == After(depth, Depth(d), cap)
    decreases d, 1
  {
    match d
    case Atom(text) => ScanQuiet(depth, text, cap);
    case Text(units) => ScanQuoted(depth, units, cap);
    case Spaced(before, inner, after) =>
      ScanQuiet(depth, before, cap);
      ScanDoc(inner, depth, cap);
      ScanQuiet(depth, after, cap);
      RefusedStays(after, cap);
      ScanConcat(Outside(depth), before + Render(inner), after, cap);
      ScanConcat(Outside(depth), before, Render(inner), cap);
    case Array(elements, blank) =>
      if depth < cap {
        if elements == [] { ScanQuiet(depth + 1, blank, cap); } else { ScanElements(d, elements, depth + 1, cap); }
      }
      Bracketed('[', if elements == [] then blank else RenderElements(elements), ']', depth, ElementsDepth(elements),
                cap);
    case Object(members, blank) =>
      if depth < cap {
        if members == [] { ScanQuiet(depth + 1, blank, cap); } else { ScanMembers(d, members, depth + 1, cap); }
      }
      Bracketed('{', if members == [] then blank else RenderMembers(members), '}', depth, MembersDepth(members), cap);
  }

  lemma Bracketed(open: char, body: string, close: char, depth: int, deep: nat, cap: int)
    requires (open == '[' && close == ']') || (open == '{' && close == '}')
    requires depth <= cap
    requires depth < cap ==> ScanAll(Outside(depth + 1), body, cap) == After(depth + 1, deep, cap)
    ensures ScanAll(Outside(depth), [open] + body + [close], cap) == After(depth, 1 + deep, cap)
  {
    ScanConcat(Outside(depth), [open] + body, [close], cap);
    ScanConcat(Outside(depth), [open], body, cap);
    ScanOne(Outside(depth), open, cap);
    RefusedStays(body, cap);
    RefusedStays([close], cap);
    ScanOne(Outside(depth + 1), close, cap);
  }

  /** One value after another, with a comma between. */
  lemma Sequenced(first: string, rest: string, depth: int, a: nat, b: nat, cap: int)
    requires ScanAll(Outside(depth), first, cap) == After(depth, a, cap)
    requires ScanAll(Outside(depth), rest, cap) == After(depth, b, cap)
    ensures ScanAll(Outside(depth), first + ("," + rest), cap) == After(depth, Max(a, b), cap)
  {
    ScanConcat(Outside(depth), first, "," + rest, cap);
    ScanConcat(Outside(depth), ",", rest, cap);
    ScanOne(Outside(depth), ',', cap);
    RefusedStays("," + rest, cap);
  }

  lemma {:induction false} ScanElements(d: Doc, elements: seq<Doc>, depth: int, cap: int)
    requires elements != [] && depth <= cap
    requires forall e :: e in elements ==> DocOk(e) && e < d
    ensures ScanAll(Outside(depth), RenderElements(elements), cap) == After(depth, ElementsDepth(elements), cap)
    decreases d, 0, |elements|
  {
    assert elements[0] in elements;
    ScanDoc(elements[0], depth, cap);
    if |elements| == 1 {
      assert RenderElements(elements) == Render(elements[0]);
    } else {
      ScanElements(d, elements[1..], depth, cap);
      Sequenced(Render(elements[0]), RenderElements(elements[1..]), depth, Depth(elements[0]),
                ElementsDepth(elements[1..]), cap);
    }
  }

  lemma ScanMember(m: Member, depth: int, cap: int)
    requires Quiet(m.before) && UnitsOk(m.key) && Quiet(m.between) && depth <= cap
    requires ScanAll(Outside(depth), Render(m.value), cap) == After(depth, Depth(m.value), cap)
    ensures ScanAll(Outside(depth), m.before + Quoted(m.key) + m.between + ":" + Render(m.value), cap)
            == After(depth, Depth(m.value), cap)
  {
    ScanQuiet(depth, m.before, cap);
    ScanQuoted(depth, m.key, cap);
    ScanQuiet(depth, m.between, cap);
    ScanOne(Outside(depth), ':', cap);
    ScanConcat(Outside(depth), m.before + Quoted(m.key) + m.between + ":", Render(m.value), cap);
    ScanConcat(Outside(depth), m.before + Quoted(m.key) + m.between, ":", cap);
    ScanConcat(Outside(depth), m.before + Quoted(m.key), m.between, cap);
    ScanConcat(Outside(depth), m.before, Quoted(m.key), cap);
  }

  lemma {:induction false} ScanMembers(d: Doc, members: seq<Member>, depth: int, cap: int)
    requires members != [] && depth <= cap
    requires forall m :: m in members ==>
               Quiet(m.before) && UnitsOk(m.key) && Quiet(m.between) && DocOk(m.value) && m.value < d
    ensures ScanAll(Outside(depth), RenderMembers(members), cap) == After(depth, MembersDepth(members), cap)
    decreases d, 0, |members|
  {
    var m := members[0];
    assert m in members;
    ScanDoc(m.value, depth, cap);
    ScanMember(m, depth, cap);
    var first := m.before + Quoted(m.key) + m.between + ":" + Render(m.value);
    if |members| == 1 {
      assert RenderMembers(members) == first;
    } else {
      ScanMembers(d, members[1..], depth, cap);
      Sequenced(first, RenderMembers(members[1..]), depth, Depth(m.value), MembersDepth(members[1..]), cap);
    }
  }

  /** The scan refuses a JSON text exactly when its nesting exceeds the cap. */
  lemma RefusesExactly(d: Doc, cap: nat)
    requires DocOk(d)
    ensures ScanAll(START, Render(d), cap).Refused? <==> Depth(d) > cap
  {
    ScanDoc(d, 0, cap);
  }

  // ----- texts that break off --------------------------------------------------------------------------------

  /** How many arrays and objects are open at the deepest point of the first `k` characters. */
  function DepthWithin(d: Doc, k: nat): nat
    requires k <= |Render(d)|
    decreases d, 1
  {
    if k == |Render(d)| then Depth(d)
    else match d
      case Atom(_) => 0
      case Text(_) => 0
      case Spaced(before, inner, _) =>
        if k <= |before| then 0
        else if k - |before| <= |Render(inner)| then DepthWithin(inner, k - |before|) else Depth(inner)
      case Array(elements, _) => if k == 0 then 0 else if elements == [] then 1 else 1 + ElementsWithin(elements, k - 1)
      case Object(members, _) => if k == 0 then 0 else if members == [] then 1 else 1 + MembersWithin(members, k - 1)
  }

  function ElementsWithin(elements: seq<Doc>, k: nat): nat
    requires elements != [] && k <= |RenderElements(elements)|
    decreases elements, 0
  {
    var first := |Render(elements[0])|;
    if k <= first then DepthWithin(elements[0], k)
    else if |elements| == 1 || k == first + 1 then Depth(elements[0])
    else Max(Depth(elements[0]), ElementsWithin(elements[1..], k - first - 1))
  }

  /** A member up to its value. */
  function Lead(m: Member): string { m.before + Quoted(m.key) + m.between + ":" }

  function MembersWithin(members: seq<Member>, k: nat): nat
    requires members != [] && k <= |RenderMembers(members)|
    decreases members, 0
  {
    var m := members[0];
    var first := |Lead(m)| + |Render(m.value)|;
    if k <= |Lead(m)| then 0
    else if k <= first then DepthWithin(m.value, k - |Lead(m)|)
    else if |members| == 1 || k == first + 1 then Depth(m.value)
    else Max(Depth(m.value), MembersWithin(members[1..], k - first - 1))
  }

  /** The scan refuses after this much nesting and not before. */
  ghost predicate RefusesAt(depth: int, text: string, deep: nat, cap: int)
  {
    ScanAll(Outside(depth), text, cap).Refused? <==> depth + deep > cap
  }

  /** Where a whole text is let through, so is each of its beginnings. */
  lemma BeginningPasses(s: Scan, text: string, k: nat, cap: int)
    requires k <= |text| && !ScanAll(s, text, cap).Refused?
    ensures !ScanAll(s, text[..k], cap).Refused?
  {
    assert text == text[..k] + text[k..];
    ScanConcat(s, text[..k], text[k..], cap);
    RefusedStays(text[k..], cap);
  }

  /** A whole part of known depth, and then the beginning of another. */
  lemma ThenBeginning(depth: int, first: string, a: nat, rest: string, b: nat, cap: int)
    requires depth <= cap && ScanAll(Outside(depth), first, cap) == After(depth, a, cap)
        && RefusesAt(depth, rest, b, cap)
    ensures RefusesAt(depth, first + rest, Max(a, b), cap)
  {
    ScanConcat(Outside(depth), first, rest, cap);
    RefusedStays(rest, cap);
  }

  lemma NothingOpens(depth: int, text: string, k: nat, cap: int)
    requires depth <= cap && k <= |text| && ScanAll(Outside(depth), text, cap) == Outside(depth)
    ensures RefusesAt(depth, text[..k], 0, cap)
  {
    BeginningPasses(Outside(depth), text, k, cap);
  }

  lemma WholeDoc(d: Doc, depth: int, cap: int)
    requires DocOk(d) && depth <= cap
    ensures RefusesAt(depth, Render(d), Depth(d), cap)
  {
    ScanDoc(d, depth, cap);
  }

  lemma {:induction false} BeginningOfDoc(d: Doc, k: nat, depth: int, cap: int)
    requires DocOk(d) && depth <= cap && k <= |Render(d)|
    ensures RefusesAt(depth, Render(d)[..k], DepthWithin(d, k), cap)
    decreases d, 1
  {
    if k == |Render(d)| {
      assert Render(d)[..k] == Render(d);
      WholeDoc(d, depth, cap);
    } else {
      match d
      case Atom(text) => ScanQuiet(depth, text, cap); NothingOpens(depth, text, k, cap);
      case Text(units) => ScanQuoted(depth, units, cap); NothingOpens(depth, Quoted(units), k, cap);
      case Spaced(before, inner, after) => BeginningOfSpaced(d, k, depth, cap);
      case Array(elements, blank) =>
        var body := if elements == [] then blank else RenderElements(elements);
        if k > 0 && depth < cap {
          if elements == [] {
            ScanQuiet(depth + 1, blank, cap);
            NothingOpens(depth + 1, blank, k - 1, cap);
          } else {
            BeginningOfElements(d, elements, k - 1, depth + 1, cap);
          }
        }
        Opened('[', body, ']', k, depth, if k == 0 || elements == [] then 0 else ElementsWithin(elements, k - 1), cap);
      case Object(members, blank) =>
        var body := if members == [] then blank else RenderMembers(members);
        if k > 0 && depth < cap {
          if members == [] {
            ScanQuiet(depth + 1, blank, cap);
            NothingOpens(depth + 1, blank, k - 1, cap);
          } else {
            BeginningOfMembers(d, members, k - 1, depth + 1, cap);
          }
        }
        Opened('{', body, '}', k, depth, if k == 0 || members == [] then 0 else MembersWithin(members, k - 1), cap);
    }
  }

  lemma BeginningOfSpaced(d: Doc, k: nat, depth: int, cap: int)
    requires d.Spaced? && DocOk(d) && depth <= cap && k < |Render(d)|
    ensures RefusesAt(depth, Render(d)[..k], DepthWithin(d, k), cap)
    decreases d, 0
  {
    var whole := Render(d.inner);
    ScanQuiet(depth, d.before, cap);
    if k <= |d.before| {
      assert Render(d)[..k] == d.before[..k];
      NothingOpens(depth, d.before, k, cap);
    } else if k - |d.before| <= |whole| {
      var rest := whole[..k - |d.before|];
      assert Render(d)[..k] == d.before + rest;
      BeginningOfDoc(d.inner, k - |d.before|, depth, cap);
      ThenBeginning(depth, d.before, 0, rest, DepthWithin(d.inner, k - |d.before|), cap);
    } else {
      var n := k - |d.before| - |whole|;
      assert Render(d)[..k] == d.before + (whole + d.after[..n]);
      ScanQuiet(depth, d.after, cap);
      NothingOpens(depth, d.after, n, cap);
      ScanDoc(d.inner, depth, cap);
      ThenBeginning(depth, whole, Depth(d.inner), d.after[..n], 0, cap);
      ThenBeginning(depth, d.before, 0, whole + d.after[..n], Depth(d.inner), cap);
    }
  }

  /** A bracket opens, and its contents break off. */
  lemma Opened(open: char, body: string, close: char, k: nat, depth: int, deep: nat, cap: int)
    requires (open == '[' && close == ']') || (open == '{' && close == '}')
    requires depth <= cap && k <= |body| + 1
    requires 0 < k && depth < cap ==> RefusesAt(depth + 1, body[..k - 1], deep, cap)
    ensures RefusesAt(depth, ([open] + body + [close])[..k], if k == 0 then 0 else 1 + deep, cap)
  {
    if k > 0 {
      assert ([open] + body + [close])[..k] == [open] + body[..k - 1];
      ScanConcat(Outside(depth), [open], body[..k - 1], cap);
      ScanOne(Outside(depth), open, cap);
      RefusedStays(body[..k - 1], cap);
    }
  }

  lemma {:induction false} BeginningOfElements(d: Doc, elements: seq<Doc>, k: nat, depth: int, cap: int)
    requires elements != [] && depth <= cap && k <= |RenderElements(elements)|
    requires forall e :: e in elements ==> DocOk(e) && e < d
    ensures RefusesAt(depth, RenderElements(elements)[..k], ElementsWithin(elements, k), cap)
    decreases d, 0, |elements|
  {
    var first := Render(elements[0]);
    assert elements[0] in elements;
    if k <= |first| {
      assert RenderElements(elements)[..k] == first[..k];
      BeginningOfDoc(elements[0], k, depth, cap);
    } else {
      ScanDoc(elements[0], depth, cap);
      var rest := RenderElements(elements[1..]);
      var n := k - |first| - 1;
      if n > 0 { BeginningOfElements(d, elements[1..], n, depth, cap); }
      AfterComma(depth, first, Depth(elements[0]), rest[..n],
                 if n == 0 then 0 else ElementsWithin(elements[1..], n), cap);
      assert RenderElements(elements)[..k] == first + ("," + rest[..n]);
    }
  }

  /** A whole value, a comma, and the beginning of what follows. */
  lemma AfterComma(depth: int, first: string, a: nat, rest: string, b: nat, cap: int)
    requires depth <= cap && ScanAll(Outside(depth), first, cap) == After(depth, a, cap)
    requires (rest == [] && b == 0) || RefusesAt(depth, rest, b, cap)
    ensures RefusesAt(depth, first + ("," + rest), Max(a, b), cap)
  {
    ScanOne(Outside(depth), ',', cap);
    ThenBeginning(depth, ",", 0, rest, b, cap);
    ThenBeginning(depth, first, a, "," + rest, b, cap);
  }

  lemma ScanLead(m: Member, depth: int, cap: int)
    requires Quiet(m.before) && UnitsOk(m.key) && Quiet(m.between)
    ensures ScanAll(Outside(depth), Lead(m), cap) == Outside(depth)
  {
    ScanQuiet(depth, m.before, cap);
    ScanQuoted(depth, m.key, cap);
    ScanQuiet(depth, m.between, cap);
    ScanOne(Outside(depth), ':', cap);
    ScanConcat(Outside(depth), m.before + Quoted(m.key) + m.between, ":", cap);
    ScanConcat(Outside(depth), m.before + Quoted(m.key), m.between, cap);
    ScanConcat(Outside(depth), m.before, Quoted(m.key), cap);
  }

  lemma {:induction false} BeginningOfMembers(d: Doc, members: seq<Member>, k: nat, depth: int, cap: int)
    requires members != [] && depth <= cap && k <= |RenderMembers(members)|
    requires forall m :: m in members ==>
               Quiet(m.before) && UnitsOk(m.key) && Quiet(m.between) && DocOk(m.value) && m.value < d
    ensures RefusesAt(depth, RenderMembers(members)[..k], MembersWithin(members, k), cap)
    decreases d, 0, |members|
  {
    var m := members[0];
    assert m in members;
    var value := Render(m.value);
    ScanLead(m, depth, cap);
    if k <= |Lead(m)| {
      assert RenderMembers(members)[..k] == Lead(m)[..k];
      NothingOpens(depth, Lead(m), k, cap);
    } else if k <= |Lead(m)| + |value| {
      var n := k - |Lead(m)|;
      assert RenderMembers(members)[..k] == Lead(m) + value[..n];
      BeginningOfDoc(m.value, n, depth, cap);
      ThenBeginning(depth, Lead(m), 0, value[..n], DepthWithin(m.value, n), cap);
    } else {
      ScanDoc(m.value, depth, cap);
      ScanMember(m, depth, cap);
      var rest := RenderMembers(members[1..]);
      var n := k - |Lead(m)| - |value| - 1;
      if n > 0 { BeginningOfMembers(d, members[1..], n, depth, cap); }
      AfterComma(depth, Lead(m) + value, Depth(m.value), rest[..n],
                 if n == 0 then 0 else MembersWithin(members[1..], n), cap);
      assert RenderMembers(members)[..k] == Lead(m) + value + ("," + rest[..n]);
    }
  }

  /**
    Wherever a JSON text breaks off, its beginning is refused exactly when it opens more than the cap; and then so is
    any text that begins like it, whatever follows and whether or not that is JSON.
  */
  lemma BeginningRefusesExactly(d: Doc, k: nat, cap: nat, rest: string)
    requires DocOk(d) && k <= |Render(d)|
    ensures ScanAll(START, Render(d)[..k], cap).Refused? <==> DepthWithin(d, k) > cap
    ensures DepthWithin(d, k) > cap ==> ScanAll(START, Render(d)[..k] + rest, cap).Refused?
  {
    BeginningOfDoc(d, k, 0, cap);
    ScanConcat(START, Render(d)[..k], rest, cap);
    RefusedStays(rest, cap);
  }

  /** Arrays within arrays, and the brackets that open them. */
  function Nested(n: nat): Doc { if n == 0 then Atom("0") else Array([Nested(n - 1)], "") }

  function Brackets(n: nat): string { if n == 0 then "" else "[" + Brackets(n - 1) }

  lemma {:induction false} NestedOpens(n: nat)
    ensures DocOk(Nested(n)) && n < |Render(Nested(n))|
    ensures Render(Nested(n))[..n] == Brackets(n) && DepthWithin(Nested(n), n) == n
  {
    if n > 0 {
      NestedOpens(n - 1);
      var inner := Nested(n - 1);
      assert RenderElements([inner]) == Render(inner);
      assert Render(Nested(n)) == "[" + Render(inner) + "]";
      assert Render(Nested(n))[..n] == "[" + Render(inner)[..n - 1];
    }
  }

  /** So a run of brackets beyond the cap is refused, closed or not, whatever comes after it. */
  lemma BracketsRefused(n: nat, cap: nat, rest: string)
    requires n > cap
    ensures ScanAll(START, Brackets(n) + rest, cap).Refused?
  {
    NestedOpens(n);
    BeginningRefusesExactly(Nested(n), n, cap, rest);
  }

  // ----- duplicate keys --------------------------------------------------------------------------------------

  /** `_reject_duplicate_keys`: the object, exactly when no key repeats. */
  method RejectDuplicateKeys<V>(pairs: seq<(string, V)>) returns (result: Option<map<string, V>>)
    ensures result.Some? <==> forall i, j :: 0 <= i < j < |pairs| ==> pairs[i].0 != pairs[j].0
    ensures result.Some? ==> forall k :: k in result.value <==> exists i :: 0 <= i < |pairs| && pairs[i].0 == k
    ensures result.Some? ==> forall i :: 0 <= i < |pairs| ==> result.value[pairs[i].0] == pairs[i].1
  {
    var built: map<string, V> := map[];
    for n := 0 to |pairs|
      invariant forall i, j :: 0 <= i < j < n ==> pairs[i].0 != pairs[j].0
      invariant forall k :: k in built <==> exists i :: 0 <= i < n && pairs[i].0 == k
      invariant forall i :: 0 <= i < n ==> built[pairs[i].0] == pairs[i].1
    {
      var (key, value) := pairs[n];
      if key in built {
        return None;
      }
      built := built[key := value];
    }
    return Some(built);
  }
}
