/** The magnitude parser `parseComponentValue` and the component factory
    `createComponent` (src/utils/componentUtils.ts). */
module ComponentUtils {
  import opened Base
  import opened Circuit

  // ---------------------------------------------------------------------
  // Character classes of the pattern /^([\d.]+)\s*([a-zA-ZµΩ]+)?$/
  // ---------------------------------------------------------------------

  predicate IsDigit(ch: char) { '0' <= ch <= '9' }

  predicate IsNumeralChar(ch: char) { IsDigit(ch) || ch == '.' }

  /** JavaScript's `\s`: white space and line terminators. */
  predicate IsSpace(ch: char) {
    ch == ' ' || ch == '\t' || ch == '\n' || ch == '\U{000B}' || ch == '\U{000C}' || ch == '\r'
    || ch == '\U{00A0}' || ch == '\U{1680}' || ('\U{2000}' <= ch <= '\U{200A}')
    || ch == '\U{2028}' || ch == '\U{2029}' || ch == '\U{202F}' || ch == '\U{205F}'
    || ch == '\U{3000}' || ch == '\U{FEFF}'
  }

  /** `[a-zA-ZµΩ]`, with µ the micro sign U+00B5 and Ω the Greek capital omega U+03A9. */
  predicate IsUnitChar(ch: char) {
    ('a' <= ch <= 'z') || ('A' <= ch <= 'Z') || ch == '\U{00B5}' || ch == '\U{03A9}'
  }

  predicate All(s: string, p: char -> bool) {
    forall i :: 0 <= i < |s| ==> p(s[i])
  }

  /** Length of the longest prefix of `s` whose characters all satisfy `p`. */
  function Span(s: string, p: char -> bool): (n: nat)
    ensures n <= |s| && All(s[..n], p)
    ensures n < |s| ==> !p(s[n])
  {
    if s == [] || !p(s[0]) then 0 else 1 + Span(s[1..], p)
  }

  /** The regular expression as a relation: `s` splits into a non-empty
      numeral, white space and a (possibly empty) unit. */
  ghost predicate Matches(s: string, numeral: string, unit: string) {
    exists space: string ::
      && s == numeral + space + unit
      && numeral != [] && All(numeral, IsNumeralChar)
      && All(space, IsSpace) && All(unit, IsUnitChar)
  }

  /** `value.match(...)`: the numeral (group 1) and the unit (group 2, or
      the empty string where the group did not take part). The three
      character classes are disjoint, so the greedy match is the only one. */
  function Match(s: string): (r: Option<(string, string)>)
    ensures r.Some? ==> r.value.0 != [] && r.value.0 <= s && All(r.value.0, IsNumeralChar)
    ensures r.Some? ==> All(r.value.1, IsUnitChar) && |r.value.0| + |r.value.1| <= |s| && r.value.1 == s[|s| - |r.value.1|..]
    ensures s == [] || !IsNumeralChar(s[0]) ==> r.None?
  {
    var d := Span(s, IsNumeralChar);
    var rest := s[d..];
    var sp := Span(rest, IsSpace);
    if d > 0 && All(rest[sp..], IsUnitChar) then Some((s[..d], rest[sp..])) else None
  }

  /** The greedy match finds exactly the splits the pattern admits. */
  lemma MatchIsPattern(s: string, numeral: string, unit: string)
    ensures Match(s) == Some((numeral, unit)) <==> Matches(s, numeral, unit)
  {
    if Match(s) == Some((numeral, unit)) {
      MatchSound(s);
    }
    if Matches(s, numeral, unit) {
      var space :| s == numeral + space + unit && numeral != [] && All(numeral, IsNumeralChar)
        && All(space, IsSpace) && All(unit, IsUnitChar);
      MatchComplete(s, numeral, space, unit);
    }
  }

  lemma MatchSound(s: string)
    requires Match(s).Some?
    ensures Matches(s, Match(s).value.0, Match(s).value.1)
  {
    var d := Span(s, IsNumeralChar);
    var rest := s[d..];
    var sp := Span(rest, IsSpace);
    var space := rest[..sp];
    assert rest == space + rest[sp..];
    assert s == s[..d] + rest;
    assert s == s[..d] + space + rest[sp..];
  }

  lemma MatchComplete(s: string, numeral: string, space: string, unit: string)
    requires s == numeral + space + unit && numeral != [] && All(numeral, IsNumeralChar)
    requires All(space, IsSpace) && All(unit, IsUnitChar)
    ensures Match(s) == Some((numeral, unit))
  {
    var tail := space + unit;
    assert s == numeral + tail;
    assert tail != [] ==> IsSpace(tail[0]) || IsUnitChar(tail[0]) by {
      if tail != [] { if space == [] { assert tail[0] == unit[0]; } else { assert tail[0] == space[0]; } }
    }
    SpanStopsAt(numeral, tail, IsNumeralChar, IsSpace, IsUnitChar);
    assert s[Span(s, IsNumeralChar)..] == tail;
    SpanStopsAt(space, unit, IsSpace, IsUnitChar, IsUnitChar);
    assert tail[|space|..] == unit;
    assert s[..|numeral|] == numeral;
    MatchParts(s, |numeral|, |space|);
  }

  /** `Match` read off the two spans. */
  lemma MatchParts(s: string, d: nat, sp: nat)
    requires 0 < d == Span(s, IsNumeralChar)
    requires sp == Span(s[d..], IsSpace) && All(s[d..][sp..], IsUnitChar)
    ensures Match(s) == Some((s[..d], s[d..][sp..]))
  {
  }

  /** A span over `a + b` stops at the end of `a` when `b` starts outside the class. */
  lemma {:induction false} SpanStopsAt(a: string, b: string, p: char -> bool, q: char -> bool, r: char -> bool)
    requires All(a, p)
    requires b != [] ==> q(b[0]) || r(b[0])
    requires forall ch :: q(ch) || r(ch) ==> !p(ch)
    ensures Span(a + b, p) == |a|
  {
    if a == [] {
      assert a + b == b;
    } else {
      assert (a + b)[1..] == a[1..] + b;
      SpanStopsAt(a[1..], b, p, q, r);
    }
  }

  // ---------------------------------------------------------------------
  // parseFloat on a string of digits and dots
  // ---------------------------------------------------------------------

  function DigitValue(ch: char): nat
    requires IsDigit(ch)
  {
    (ch as int) - ('0' as int)
  }

  /** The integer a string of decimal digits denotes. */
  function DigitsValue(ds: string): nat
    requires All(ds, IsDigit)
  {
    if ds == [] then 0 else 10 * DigitsValue(ds[..|ds| - 1]) + DigitValue(ds[|ds| - 1])
  }

  /** The fraction `0.ds`. */
  function FractionValue(ds: string): (r: real)
    requires All(ds, IsDigit)
    ensures 0.0 <= r < 1.0
  {
    if ds == [] then 0.0 else (DigitValue(ds[0]) as real + FractionValue(ds[1..])) / 10.0
  }

  /** `parseFloat` on a numeral from the pattern's first group: the longest
      prefix of the form digits[.digits] (at least one digit) is read; a
      string with no digit before its second dot gives NaN. */
  function ParseFloat(numeral: string): (r: Num)
    requires All(numeral, IsNumeralChar)
    ensures r.Finite? ==> r.value >= 0.0
    ensures r.NaN? <==> numeral == [] || (numeral[0] == '.' && (|numeral| == 1 || !IsDigit(numeral[1])))
    ensures numeral != [] && All(numeral, IsDigit) ==> r == Finite(DigitsValue(numeral) as real)
  {
    var i := Span(numeral, IsDigit);
    var whole := numeral[..i];
    assert All(numeral, IsDigit) ==> i == |numeral| && whole == numeral;
    var fraction := if i < |numeral| && numeral[i] == '.' then
      var after := numeral[i + 1..]; after[..Span(after, IsDigit)]
    else "";
    if whole == [] && fraction == [] then NaN
    else Finite(DigitsValue(whole) as real + FractionValue(fraction))
  }

  // ---------------------------------------------------------------------
  // The prefix table and parseComponentValue
  // ---------------------------------------------------------------------

  /** `toLowerCase` on the characters a unit can hold: A-Z and Ω lower-case,
      µ (U+00B5) is its own lower case. */
  function LowerChar(ch: char): char {
    if 'A' <= ch <= 'Z' then (ch as int + 32) as char
    else if ch == '\U{03A9}' then '\U{03C9}'
    else ch
  }

  function Lower(s: string): (r: string)
    ensures |r| == |s| && forall i :: 0 <= i < |s| ==> r[i] == LowerChar(s[i])
  {
    if s == [] then [] else [LowerChar(s[0])] + Lower(s[1..])
  }

  /** The multiplier table in the order `Object.entries` walks it. */
  const Prefixes: seq<(string, real)> := [
    ("p", 0.000000000001), ("n", 0.000000001), ("\U{00B5}", 0.000001), ("u", 0.000001),
    ("m", 0.001), ("k", 1000.0), ("meg", 1000000.0), ("g", 1000000000.0)]

  /** Index of the first table entry (from `from` on) whose prefix the unit starts with. */
  function FirstPrefix(unit: string, from: nat): (r: Option<nat>)
    requires from <= |Prefixes|
    ensures r.Some? ==> from <= r.value < |Prefixes| && Prefixes[r.value].0 <= unit
    ensures r.Some? ==> forall j :: from <= j < r.value ==> !(Prefixes[j].0 <= unit)
    ensures r.None? ==> forall j :: from <= j < |Prefixes| ==> !(Prefixes[j].0 <= unit)
    decreases |Prefixes| - from
  {
    if from == |Prefixes| then None
    else if Prefixes[from].0 <= unit then Some(from)
    else FirstPrefix(unit, from + 1)
  }

  /** `parseComponentValue(value)`. */
  function ParseComponentValue(value: string): (r: Num)
    ensures r.Finite? ==> r.value >= 0.0
    ensures r.NaN? <==> Match(value).Some? && ParseFloat(Match(value).value.0).NaN?
  {
    if value == "" then Finite(0.0)
    else match Match(value)
      case None => Finite(0.0)
      case Some((numeral, unit)) =>
        var num := ParseFloat(numeral);
        match FirstPrefix(Lower(unit), 0)
        case Some(i) => num.Times(Prefixes[i].1)
        case None => num
  }

  // ---------------------------------------------------------------------
  // createComponent
  // ---------------------------------------------------------------------

  /** The id `${type}-${Date.now()}-${Math.random()}`; the clock reading and
      the random number are parameters. */
  function NewComponentId(kind: Kind, now: string, random: string): string {
    KindName(kind) + "-" + now + "-" + random
  }

  /** For each terminal a kind gets, in order: id suffix, offset and name. */
  function TerminalLayout(kind: Kind): seq<(string, Point, string)> {
    match kind
    case Resistor | Capacitor | Inductor | Diode | Led | Battery | AcSource | SwitchSpst =>
      [("t1", Point(-40.0, 0.0), "T1"), ("t2", Point(40.0, 0.0), "T2")]
    case TransistorNpn | TransistorPnp | Mosfet =>
      [("base", Point(-40.0, 0.0), "Base"), ("collector", Point(15.0, -40.0), "Collector"),
       ("emitter", Point(15.0, 40.0), "Emitter")]
    case SwitchSpdt =>
      [("common", Point(-40.0, 0.0), "Common"), ("no", Point(40.0, -15.0), "NO"),
       ("nc", Point(40.0, 15.0), "NC")]
    case Ic =>
      [("pin1", Point(-30.0, -20.0), "Pin1"), ("pin2", Point(-30.0, 0.0), "Pin2"),
       ("pin3", Point(-30.0, 20.0), "Pin3"), ("pin4", Point(30.0, -20.0), "Pin4"),
       ("pin5", Point(30.0, 0.0), "Pin5"), ("pin6", Point(30.0, 20.0), "Pin6")]
    case Connector => [("t1", Point(0.0, 0.0), "T1")]
    case Ground => [("t1", Point(0.0, -20.0), "T1")]
    case Label | Text => []
  }

  /** How many terminals each kind has. */
  function TerminalCount(kind: Kind): nat {
    match kind
    case Resistor | Capacitor | Inductor | Diode | Led | Battery | AcSource | SwitchSpst => 2
    case TransistorNpn | TransistorPnp | Mosfet | SwitchSpdt => 3
    case Ic => 6
    case Connector | Ground => 1
    case Label | Text => 0
  }

  lemma LayoutSuffixesDistinct(kind: Kind)
    ensures |TerminalLayout(kind)| == TerminalCount(kind)
    ensures forall i, j :: 0 <= i < j < |TerminalLayout(kind)| ==>
      TerminalLayout(kind)[i].0 != TerminalLayout(kind)[j].0
  {
  }

  lemma PrefixCancels(p: string, a: string, b: string)
    requires p + a == p + b
    ensures a == b
  {
    assert a == (p + a)[|p|..];
    assert b == (p + b)[|p|..];
  }

  /** `createComponent(type, x, y, defaultValue)`; an absent default value
      is the empty string. */
  function CreateComponent(kind: Kind, x: real, y: real, defaultValue: string, now: string, random: string): (c: Component)
    ensures c.kind == kind && c.pos == Point(x, y)
    ensures c.rotation == 0.0 && c.props == Properties("", defaultValue)
    ensures KindName(kind) + "-" <= c.id
    ensures |c.terminals| == TerminalCount(kind)
    ensures forall t :: t in c.terminals ==> t.componentId == c.id && c.id + "-" <= t.id
    ensures forall i, j :: 0 <= i < j < |c.terminals| ==> c.terminals[i].id != c.terminals[j].id
  {
    var id := NewComponentId(kind, now, random);
    var layout := TerminalLayout(kind);
    LayoutSuffixesDistinct(kind);
    var c := Component(id, kind, Point(x, y), 0.0, Properties("", defaultValue),
      seq(|layout|, i requires 0 <= i < |layout| =>
        Terminal(id + "-" + layout[i].0, layout[i].1, id, layout[i].2)));
    assert forall i, j :: 0 <= i < j < |layout| ==> c.terminals[i].id != c.terminals[j].id by {
      forall i, j | 0 <= i < j < |layout| ensures c.terminals[i].id != c.terminals[j].id {
        if c.terminals[i].id == c.terminals[j].id {
          assert (id + "-") + layout[i].0 == (id + "-") + layout[j].0;
          PrefixCancels(id + "-", layout[i].0, layout[j].0);
        }
      }
    }
    assert forall t :: t in c.terminals ==> id + "-" <= t.id;
    c
  }
}

module ComponentUtilsProps {
  import opened Base
  import opened ComponentUtils

  /** Anything the pattern rejects parses to 0; so does the empty string. */
  lemma ParseRejected(s: string)
    requires forall numeral, unit :: !Matches(s, numeral, unit)
    ensures ParseComponentValue(s) == Finite(0.0)
  {
    if Match(s).Some? {
      MatchIsPattern(s, Match(s).value.0, Match(s).value.1);
    }
  }

  /** A sign is not part of the numeral class: "-5V" parses to 0. */
  lemma SignedIsZero(s: string)
    requires s != [] && (s[0] == '-' || s[0] == '+')
    ensures ParseComponentValue(s) == Finite(0.0)
  {
  }

  /** On a string the pattern accepts, the value is the numeral's value
      times the multiplier of the first prefix the lower-cased unit starts
      with, or the bare numeral when none does. */
  lemma ParseAccepted(s: string, numeral: string, unit: string)
    requires Matches(s, numeral, unit)
    ensures All(numeral, IsNumeralChar)
    ensures ParseComponentValue(s) ==
      match FirstPrefix(Lower(unit), 0)
      case Some(i) => ParseFloat(numeral).Times(Prefixes[i].1)
      case None => ParseFloat(numeral)
  {
    MatchIsPattern(s, numeral, unit);
  }

  /** The table entry a unit's first character selects. */
  function HeadPrefix(ch: char): Option<nat> {
    if ch == 'p' then Some(0)
    else if ch == 'n' then Some(1)
    else if ch == '\U{00B5}' then Some(2)
    else if ch == 'u' then Some(3)
    else if ch == 'm' then Some(4)
    else if ch == 'k' then Some(5)
    else if ch == 'g' then Some(7)
    else None
  }

  /** Every entry but `meg` is one character long and `meg` comes after
      `m`, so the first match depends only on the unit's first character
      and is never the `meg` entry (index 6). */
  lemma FirstPrefixByHead(unit: string)
    ensures FirstPrefix(unit, 0) == if unit == [] then None else HeadPrefix(unit[0])
    ensures FirstPrefix(unit, 0) != Some(6)
  {
    if unit != [] {
      var h := unit[0];
      forall i | 0 <= i < |Prefixes| && i != 6
        ensures Prefixes[i].0 <= unit <==> h == Prefixes[i].0[0]
      {
        assert |Prefixes[i].0| == 1;
        if h == Prefixes[i].0[0] { assert unit[..1] == Prefixes[i].0; }
      }
      assert Prefixes[6].0 <= unit ==> h == 'm' by {
        if Prefixes[6].0 <= unit { assert unit[0] == Prefixes[6].0[0]; }
      }
      assert FirstPrefix(unit, 7) == if h == 'g' then Some(7) else None;
      assert h != 'm' ==> FirstPrefix(unit, 6) == FirstPrefix(unit, 7);
      assert FirstPrefix(unit, 5) == if h == 'k' then Some(5) else FirstPrefix(unit, 6);
      assert FirstPrefix(unit, 4) == if h == 'm' then Some(4) else FirstPrefix(unit, 5);
      assert FirstPrefix(unit, 3) == if h == 'u' then Some(3) else FirstPrefix(unit, 4);
      assert FirstPrefix(unit, 2) == if h == '\U{00B5}' then Some(2) else FirstPrefix(unit, 3);
      assert FirstPrefix(unit, 1) == if h == 'n' then Some(1) else FirstPrefix(unit, 2);
      assert FirstPrefix(unit, 0) == if h == 'p' then Some(0) else FirstPrefix(unit, 1);
    }
  }

  /** In particular every unit starting with "meg" gets the milli multiplier. */
  lemma MegUnreachable(unit: string)
    requires "meg" <= unit
    ensures FirstPrefix(unit, 0) == Some(4) && Prefixes[4].1 == 0.001
  {
    FirstPrefixByHead(unit);
  }

  /** A span over a string wholly inside the class covers it. */
  lemma {:induction false} SpanAll(s: string, p: char -> bool)
    requires All(s, p)
    ensures Span(s, p) == |s|
  {
    if s != [] { SpanAll(s[1..], p); }
  }

  lemma IntegerNumeral(numeral: string)
    requires numeral != [] && All(numeral, IsDigit)
    ensures All(numeral, IsNumeralChar)
    ensures ParseFloat(numeral) == Finite(DigitsValue(numeral) as real)
  {
    SpanAll(numeral, IsDigit);
    assert numeral[..|numeral|] == numeral;
  }

  /** A span of digits over `a + b` stops at the end of `a` when `b` does
      not start with a digit. */
  lemma {:induction false} SpanDigits(a: string, b: string)
    requires All(a, IsDigit) && (b != [] ==> !IsDigit(b[0]))
    ensures Span(a + b, IsDigit) == |a|
  {
    if a != [] {
      assert (a + b)[1..] == a[1..] + b;
      SpanDigits(a[1..], b);
    }
  }

  /** A numeral with a fractional part reads as its whole digits plus the
      fraction `0.f`; whatever follows a second dot is ignored. At least
      one digit must stand on either side of the dot. */
  lemma DecimalValue(w: string, f: string, rest: string)
    requires All(w, IsDigit) && All(f, IsDigit) && (w != [] || f != [])
    requires All(rest, IsNumeralChar) && (rest == [] || rest[0] == '.')
    ensures All(w + "." + f + rest, IsNumeralChar)
    ensures ParseFloat(w + "." + f + rest) == Finite(DigitsValue(w) as real + FractionValue(f))
  {
    var after := f + rest;
    var tail := ['.'] + after;
    var numeral := w + tail;
    assert w + "." + f + rest == numeral;
    DecimalChars(w, f, rest, numeral);
    WholePart(numeral, w, tail);
    assert tail[1..] == after;
    FractionPart(after, f, rest);
    ParseFloatParts(numeral, w, f);
  }

  /** The digits before a dot. */
  lemma WholePart(numeral: string, w: string, tail: string)
    requires numeral == w + tail && All(w, IsDigit) && tail != [] && tail[0] == '.'
    ensures Span(numeral, IsDigit) == |w| < |numeral| && numeral[..|w|] == w && numeral[|w|] == '.'
    ensures numeral[|w| + 1..] == tail[1..]
  {
    SpanDigits(w, tail);
  }

  /** The digits after it, up to the end or the next dot. */
  lemma FractionPart(after: string, f: string, rest: string)
    requires after == f + rest && All(f, IsDigit) && (rest == [] || rest[0] == '.')
    ensures Span(after, IsDigit) == |f| && after[..|f|] == f
  {
    SpanDigits(f, rest);
  }

  /** `ParseFloat` read off the two spans of digits around the first dot. */
  lemma ParseFloatParts(numeral: string, w: string, f: string)
    requires All(numeral, IsNumeralChar) && All(w, IsDigit) && All(f, IsDigit) && (w != [] || f != [])
    requires Span(numeral, IsDigit) == |w| < |numeral| && numeral[..|w|] == w && numeral[|w|] == '.'
    requires Span(numeral[|w| + 1..], IsDigit) == |f| && numeral[|w| + 1..][..|f|] == f
    ensures ParseFloat(numeral) == Finite(DigitsValue(w) as real + FractionValue(f))
  {
  }

  lemma DecimalChars(w: string, f: string, rest: string, n: string)
    requires n == w + "." + f + rest
    requires All(w, IsDigit) && All(f, IsDigit) && All(rest, IsNumeralChar)
    ensures All(n, IsNumeralChar)
  {
    forall i | 0 <= i < |n|
      ensures IsNumeralChar(n[i])
    {
      if i < |w| { assert n[i] == w[i]; }
      else if i == |w| { assert n[i] == '.'; }
      else if i < |w| + 1 + |f| { assert n[i] == f[i - |w| - 1]; }
      else { assert n[i] == rest[i - |w| - 1 - |f|]; }
    }
  }

  /** Any numeral the pattern accepts, followed directly by a unit, parses
      to `parseFloat` of the numeral times the first matching multiplier. */
  lemma NumeralWithUnit(s: string, numeral: string, unit: string, x: real)
    requires s == numeral + unit
    requires numeral != [] && All(numeral, IsNumeralChar) && All(unit, IsUnitChar)
    requires ParseFloat(numeral) == Finite(x)
    ensures ParseComponentValue(s) ==
      match FirstPrefix(Lower(unit), 0)
      case Some(i) => Finite(x).Times(Prefixes[i].1)
      case None => Finite(x)
  {
    assert s == numeral + [] + unit;
    MatchComplete(s, numeral, [], unit);
    MatchIsPattern(s, numeral, unit);
    ParseAccepted(s, numeral, unit);
  }

  /** A decimal numeral followed directly by a unit. */
  lemma DecimalWithUnit(s: string, w: string, f: string, unit: string, x: real)
    requires s == w + "." + f + unit
    requires All(w, IsDigit) && All(f, IsDigit) && (w != [] || f != []) && All(unit, IsUnitChar)
    requires x == DigitsValue(w) as real + FractionValue(f)
    ensures ParseComponentValue(s) ==
      match FirstPrefix(Lower(unit), 0)
      case Some(i) => Finite(x).Times(Prefixes[i].1)
      case None => Finite(x)
  {
    var numeral := w + "." + f;
    assert numeral + [] == numeral;
    DecimalValue(w, f, []);
    assert s == numeral + unit;
    NumeralWithUnit(s, numeral, unit, x);
  }

  /** An integer numeral followed directly by a unit. */
  lemma IntegerWithUnit(s: string, numeral: string, unit: string)
    requires s == numeral + unit
    requires numeral != [] && All(numeral, IsDigit) && All(unit, IsUnitChar)
    ensures ParseComponentValue(s) ==
      match FirstPrefix(Lower(unit), 0)
      case Some(i) => Finite(DigitsValue(numeral) as real).Times(Prefixes[i].1)
      case None => Finite(DigitsValue(numeral) as real)
  {
    IntegerNumeral(numeral);
    MatchComplete(s, numeral, "", unit);
    MatchIsPattern(s, numeral, unit);
    ParseAccepted(s, numeral, unit);
  }

  /** An integer numeral and a unit whose first character picks entry `i`. */
  lemma IntegerTimesPrefix(s: string, numeral: string, unit: string, d: nat, i: nat, m: real)
    requires s == numeral + unit
    requires numeral != [] && All(numeral, IsDigit) && All(unit, IsUnitChar) && DigitsValue(numeral) == d
    requires unit != [] && HeadPrefix(LowerChar(unit[0])) == Some(i)
    requires i < |Prefixes| && Prefixes[i].1 == m
    ensures ParseComponentValue(s) == Finite(d as real).Times(m)
  {
    IntegerWithUnit(s, numeral, unit);
    FirstPrefixByHead(Lower(unit));
  }

  /** A decimal numeral and a unit whose first character picks entry `i`. */
  lemma DecimalTimesPrefix(s: string, w: string, f: string, unit: string, x: real, i: nat, m: real)
    requires s == w + "." + f + unit
    requires All(w, IsDigit) && All(f, IsDigit) && (w != [] || f != []) && All(unit, IsUnitChar)
    requires DigitsValue(w) as real + FractionValue(f) == x
    requires unit != [] && HeadPrefix(LowerChar(unit[0])) == Some(i)
    requires i < |Prefixes| && Prefixes[i].1 == m
    ensures ParseComponentValue(s) == Finite(x).Times(m)
  {
    DecimalWithUnit(s, w, f, unit, x);
    FirstPrefixByHead(Lower(unit));
  }

  /** An integer numeral and a unit whose first character picks no entry. */
  lemma IntegerPlain(s: string, numeral: string, unit: string, d: nat)
    requires s == numeral + unit
    requires numeral != [] && All(numeral, IsDigit) && All(unit, IsUnitChar)
    requires unit != [] && HeadPrefix(LowerChar(unit[0])) == None
    requires DigitsValue(numeral) == d
    ensures ParseComponentValue(s) == Finite(d as real)
  {
    IntegerWithUnit(s, numeral, unit);
    FirstPrefixByHead(Lower(unit));
  }

  // The values the editor's templates use, each through the same steps.

  lemma Parse9V(s: string)
    requires s == "9V"
    ensures ParseComponentValue(s) == Finite(9.0)
  {
    assert s == "9" + "V";
    assert DigitsValue("9") == 9;
    IntegerPlain(s, "9", "V", 9);
  }

  lemma Parse220Ohm(s: string)
    requires s == "220\U{03A9}"
    ensures ParseComponentValue(s) == Finite(220.0)
  {
    assert s == "220" + "\U{03A9}";
    assert DigitsValue("220") == 220 by { assert DigitsValue("22") == 22; }
    IntegerPlain(s, "220", "\U{03A9}", 220);
  }

  lemma Parse1KiloOhm(s: string)
    requires s == "1k\U{03A9}"
    ensures ParseComponentValue(s) == Finite(1000.0)
  {
    assert s == "1" + "k\U{03A9}";
    assert DigitsValue("1") == 1;
    IntegerTimesPrefix(s, "1", "k\U{03A9}", 1, 5, 1000.0);
  }

  /** "4.7kΩ" parses to 4700. */
  lemma Parse4Point7KiloOhm(s: string)
    requires s == "4.7k\U{03A9}"
    ensures ParseComponentValue(s) == Finite(4700.0)
  {
    assert s == "4" + "." + "7" + "k\U{03A9}";
    assert DigitsValue("4") as real + FractionValue("7") == 4.7;
    DecimalTimesPrefix(s, "4", "7", "k\U{03A9}", 4.7, 5, 1000.0);
  }

  lemma Parse10MicroFarad(s: string)
    requires s == "10\U{00B5}F"
    ensures ParseComponentValue(s) == Finite(0.00001)
  {
    assert s == "10" + "\U{00B5}F";
    assert DigitsValue("10") == 10;
    IntegerTimesPrefix(s, "10", "\U{00B5}F", 10, 2, 0.000001);
  }

  lemma Parse100MilliHenry(s: string)
    requires s == "100mH"
    ensures ParseComponentValue(s) == Finite(0.1)
  {
    assert s == "100" + "mH";
    assert DigitsValue("100") == 100 by { assert DigitsValue("10") == 10; }
    IntegerTimesPrefix(s, "100", "mH", 100, 4, 0.001);
  }

  /** "1meg" comes out as milli, not mega, and so does "1M": lower-casing
      makes it "m", which the table tries before "meg". */
  lemma Parse1MegIsMilli(s: string)
    requires s == "1meg" || s == "1M"
    ensures ParseComponentValue(s) == Finite(0.001)
  {
    assert DigitsValue("1") == 1;
    if s == "1meg" {
      assert s == "1" + "meg";
      IntegerTimesPrefix(s, "1", "meg", 1, 4, 0.001);
    } else {
      assert s == "1" + "M";
      IntegerTimesPrefix(s, "1", "M", 1, 4, 0.001);
    }
  }
}
