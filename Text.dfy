/** The few Python string operations the core relies on, with their
    documented meaning stated as contracts: `str.find`, `str.split` on a
    one-character separator, `str.join`, `str.lower` (ASCII letters only),
    `str(int)`, `int(str)` and the slice `s[:-k]`. */
module Text {
  import opened Wrappers

  /** `sub` occurs in `s` starting at index `i`. */
  predicate OccursAt(s: string, sub: string, i: nat) {
    i + |sub| <= |s| && s[i..i + |sub|] == sub
  }

  predicate Contains(s: string, sub: string) {
    exists i: nat :: i <= |s| && OccursAt(s, sub, i)
  }

  function FindFrom(s: string, sub: string, i: nat): (r: int)
    requires i <= |s|
    ensures r == -1 || (i <= r <= |s| && OccursAt(s, sub, r))
    ensures r == -1 <==> forall j: nat :: i <= j <= |s| ==> !OccursAt(s, sub, j)
    ensures r != -1 ==> forall j: nat :: i <= j < r ==> !OccursAt(s, sub, j)
    decreases |s| - i
  {
    if OccursAt(s, sub, i) then i
    else if i == |s| then -1
    else FindFrom(s, sub, i + 1)
  }

  /** Python's `s.find(sub)`: the lowest index at which `sub` occurs, or -1. */
  function Find(s: string, sub: string): (r: int)
    ensures r != -1 <==> Contains(s, sub)
    ensures r != -1 ==> 0 <= r && OccursAt(s, sub, r)
    ensures r != -1 ==> forall j: nat :: j < r ==> !OccursAt(s, sub, j)
  {
    FindFrom(s, sub, 0)
  }

  function LowerChar(c: char): char {
    if 'A' <= c <= 'Z' then (c as int + 32) as char else c
  }

  /** `s.lower()` restricted to ASCII letters. */
  function Lower(s: string): (r: string)
    ensures |r| == |s|
  {
    if s == [] then [] else [LowerChar(s[0])] + Lower(s[1..])
  }

  /** `sep.join(parts)`. */
  function Join(sep: string, parts: seq<string>): string {
    if |parts| == 0 then ""
    else if |parts| == 1 then parts[0]
    else parts[0] + sep + Join(sep, parts[1..])
  }

  /** `s.split(c)` for a one-character separator: every occurrence of `c`
      ends a piece, so there is always one piece more than separators. */
  function Split(s: string, c: char): (parts: seq<string>)
    ensures |parts| >= 1
    ensures forall k :: 0 <= k < |parts| ==> c !in parts[k]
    decreases |s|
  {
    if s == [] then [""]
    else
      var rest := Split(s[1..], c);
      if s[0] == c then [""] + rest
      else [[s[0]] + rest[0]] + rest[1..]
  }

  lemma {:induction false} JoinPrependFirst(x: string, parts: seq<string>, sep: string)
    requires |parts| >= 1
    ensures Join(sep, [x + parts[0]] + parts[1..]) == x + Join(sep, parts)
  {
    var q := [x + parts[0]] + parts[1..];
    if |parts| > 1 {
      assert q[1..] == parts[1..];
    }
  }

  /** Joining the pieces of a split with the separator gives back the string. */
  lemma {:induction false} JoinOfSplit(s: string, c: char)
    ensures Join([c], Split(s, c)) == s
    decreases |s|
  {
    if s != [] {
      JoinOfSplit(s[1..], c);
      var rest := Split(s[1..], c);
      if s[0] == c {
        assert ([""] + rest)[1..] == rest;
        assert s == [c] + s[1..];
      } else {
        JoinPrependFirst([s[0]], rest, [c]);
        assert s == [s[0]] + s[1..];
      }
    }
  }

  lemma {:induction false} SplitPrefix(a: string, t: string, c: char)
    requires c !in a
    ensures Split(a + t, c) == [a + Split(t, c)[0]] + Split(t, c)[1..]
    decreases |a|
  {
    if a == [] {
      var parts := Split(t, c);
      assert a + t == t;
      assert a + parts[0] == parts[0];
      assert [parts[0]] + parts[1..] == parts;
    } else {
      SplitPrefix(a[1..], t, c);
      assert (a + t)[1..] == a[1..] + t;
      assert [a[0]] + (a[1..] + Split(t, c)[0]) == a + Split(t, c)[0];
    }
  }

  /** Splitting pieces joined by the separator gives back the pieces, as
      long as no piece contains the separator. */
  lemma {:induction false} SplitOfJoin(parts: seq<string>, c: char)
    requires |parts| >= 1
    requires forall k :: 0 <= k < |parts| ==> c !in parts[k]
    ensures Split(Join([c], parts), c) == parts
    decreases |parts|
  {
    if |parts| == 1 {
      SplitPrefix(parts[0], "", c);
      assert parts[0] + "" == parts[0];
    } else {
      var tail := Join([c], parts[1..]);
      SplitOfJoin(parts[1..], c);
      assert Join([c], parts) == parts[0] + ([c] + tail);
      SplitPrefix(parts[0], [c] + tail, c);
      assert ([c] + tail)[1..] == tail;
      assert Split([c] + tail, c) == [""] + parts[1..];
      assert parts[0] + "" == parts[0];
    }
  }

  predicate IsDigit(c: char) {
    '0' <= c <= '9'
  }

  predicate AllDigits(s: string) {
    forall i :: 0 <= i < |s| ==> IsDigit(s[i])
  }

  function DigitChar(d: nat): (c: char)
    requires d < 10
    ensures IsDigit(c) && c as int - '0' as int == d
  {
    ('0' as int + d) as char
  }

  /** `str(n)` for a natural number: its shortest decimal spelling. */
  function NatToString(n: nat): (s: string)
    ensures |s| >= 1 && AllDigits(s)
  {
    if n < 10 then [DigitChar(n)] else NatToString(n / 10) + [DigitChar(n % 10)]
  }

  function DigitsValue(s: string): nat
    requires AllDigits(s)
  {
    if s == [] then 0 else DigitsValue(s[..|s| - 1]) * 10 + (s[|s| - 1] as int - '0' as int)
  }

  function DigitValue(c: char): nat
    requires IsDigit(c)
  {
    c as int - '0' as int
  }

  /** The value of a non-empty run of decimal digits, and `None` for any
      other text. */
  function Digits(s: string): Option<nat>
    decreases |s|
  {
    if s == [] || !IsDigit(s[|s| - 1]) then None
    else if |s| == 1 then Some(DigitValue(s[0]))
    else match Digits(s[..|s| - 1])
      case None => None
      case Some(v) => Some(v * 10 + DigitValue(s[|s| - 1]))
  }

  /** `Digits` reads exactly the non-empty all-digit strings, as their
      decimal value. */
  lemma {:induction false} DigitsMeaning(s: string)
    ensures Digits(s).Some? <==> |s| >= 1 && AllDigits(s)
    ensures Digits(s).Some? ==> Digits(s).value == DigitsValue(s)
    decreases |s|
  {
    if |s| >= 1 {
      var init := s[..|s| - 1];
      if |s| > 1 {
        DigitsMeaning(init);
        assert forall i :: 0 <= i < |init| ==> init[i] == s[i];
        if !AllDigits(init) {
          var i :| 0 <= i < |init| && !IsDigit(init[i]);
          assert !IsDigit(s[i]);
        }
      } else {
        assert init == [];
      }
    }
  }

  /** `int(s)` on a decimal literal with an optional sign; any other text
      raises `ValueError`, modelled as `None`. */
  function ParseInt(s: string): Option<int> {
    if |s| >= 1 && (s[0] == '-' || s[0] == '+') then
      match Digits(s[1..])
      case None => None
      case Some(v) => Some(if s[0] == '-' then -(v as int) else v as int)
    else match Digits(s)
      case None => None
      case Some(v) => Some(v)
  }

  /** A string starting with a sign is never all digits. */
  lemma SignIsNoDigit(s: string)
    requires |s| >= 1 && (s[0] == '-' || s[0] == '+')
    ensures !AllDigits(s)
  {
    assert !IsDigit(s[0]);
  }

  /** `int` on a signed literal reads the digits after the sign. */
  lemma ParseIntSigned(s: string)
    requires |s| >= 1 && (s[0] == '-' || s[0] == '+')
    ensures ParseInt(s).Some? <==> |s| >= 2 && AllDigits(s[1..])
    ensures ParseInt(s).Some? ==>
              ParseInt(s).value == if s[0] == '-' then -(DigitsValue(s[1..]) as int) else DigitsValue(s[1..]) as int
  {
    DigitsMeaning(s[1..]);
  }

  /** `int` on text without a sign reads it as digits. */
  lemma ParseIntUnsigned(s: string)
    requires !(|s| >= 1 && (s[0] == '-' || s[0] == '+'))
    ensures ParseInt(s) == if |s| >= 1 && AllDigits(s) then Some(DigitsValue(s) as int) else None
  {
    DigitsMeaning(s);
  }

  /** `int` accepts exactly a sign followed by at least one digit, or at
      least one digit, and reads the number they spell. */
  lemma ParseIntMeaning(s: string)
    ensures ParseInt(s).Some? <==>
              (|s| >= 2 && (s[0] == '-' || s[0] == '+') && AllDigits(s[1..])) || (|s| >= 1 && AllDigits(s))
    ensures |s| >= 2 && s[0] == '-' && AllDigits(s[1..]) ==> ParseInt(s) == Some(-(DigitsValue(s[1..]) as int))
    ensures |s| >= 2 && s[0] == '+' && AllDigits(s[1..]) ==> ParseInt(s) == Some(DigitsValue(s[1..]) as int)
    ensures |s| >= 1 && AllDigits(s) ==> ParseInt(s) == Some(DigitsValue(s) as int)
  {
    if |s| >= 1 && (s[0] == '-' || s[0] == '+') {
      ParseIntSigned(s);
      SignIsNoDigit(s);
    } else {
      ParseIntUnsigned(s);
    }
  }

  lemma {:induction false} DigitsValueOfNatToString(n: nat)
    ensures DigitsValue(NatToString(n)) == n
  {
    if n >= 10 {
      DigitsValueOfNatToString(n / 10);
      var s := NatToString(n / 10) + [DigitChar(n % 10)];
      assert s[..|s| - 1] == NatToString(n / 10);
    }
  }

  /** `int(str(n)) == n`. */
  lemma ParseIntOfNatToString(n: nat)
    ensures ParseInt(NatToString(n)) == Some(n)
  {
    DigitsValueOfNatToString(n);
    ParseIntMeaning(NatToString(n));
  }

  /** Python's slice `s[:-k]` for `k >= 1`: all but the last `k` characters,
      or the empty string when `s` is shorter. */
  function DropLast(s: string, k: nat): string
    requires k >= 1
  {
    if |s| >= k then s[..|s| - k] else ""
  }

  /** `s[:-k]` followed by the last `k` characters is `s`; a string shorter
      than `k` leaves nothing. */
  lemma DropLastMeaning(s: string, k: nat)
    requires k >= 1
    ensures |s| >= k ==> s == DropLast(s, k) + s[|s| - k..]
    ensures |s| < k ==> DropLast(s, k) == ""
  {
  }

  /** Cutting the last `k` characters off `a + b` with `|b| == k` gives `a`. */
  lemma DropLastOfAppend(a: string, b: string)
    requires |b| >= 1
    ensures DropLast(a + b, |b|) == a
  {
    assert (a + b)[..|a|] == a;
  }

  /** The `ValueError` messages of `str.format` for a malformed template. */
  const SingleClose: string := "Single '}' encountered in format string"
  const SingleOpen: string := "Single '{' encountered in format string"
  const Unclosed: string := "expected '}' before end of string"
  const BraceInName: string := "unexpected '{' in field name"

  /** `str(e)` of the `KeyError` raised for an unknown field name: the
      name between single quotes. */
  function KeyMessage(name: string): string {
    "'" + name + "'"
  }

  /** A field named by nothing or by digits is positional: `format` is
      given keyword arguments only, so it raises `IndexError`. */
  predicate Positional(name: string) {
    AllDigits(name)
  }

  /** `str(e)` of that `IndexError`: automatic numbering starts at 0. */
  function IndexMessage(name: string): string
    requires Positional(name)
  {
    "Replacement index " + NatToString(DigitsValue(name)) + " out of range for positional args tuple"
  }

  function Prepend(a: string, r: Result<string, string>): Result<string, string> {
    if r.Ok? then Ok(a + r.value) else r
  }

  /** The index of the `}` that closes a replacement field, scanning from
      `i` with `depth` braces open (nested `{` are counted), or -1 when the
      text ends first. */
  function Closing(t: string, i: nat, depth: nat): (j: int)
    requires depth >= 1
    ensures j == -1 || (i <= j < |t| && t[j] == '}')
    decreases |t| - i
  {
    if i >= |t| then -1
    else if t[i] == '{' then Closing(t, i + 1, depth + 1)
    else if t[i] == '}' then (if depth == 1 then i else Closing(t, i + 1, depth - 1))
    else Closing(t, i + 1, depth)
  }

  /** `template.format(**fields)` for replacement fields that are plain
      names, scanned left to right so that the first fault decides the
      exception: `{{` and `}}` stand for one brace and `{name}` for the
      named value; a lone `}`, a `{` at the end, a field never closed or
      a `{` inside a field name raise `ValueError` with Python's message,
      a positional field raises `IndexError` and an unknown name `KeyError`.
      The error is `str(e)`. */
  function Format(t: string, fields: map<string, string>): Result<string, string>
    decreases |t|
  {
    if t == [] then Ok("")
    else if t[0] == '{' && |t| >= 2 && t[1] == '{' then Prepend("{", Format(t[2..], fields))
    else if t[0] == '}' && |t| >= 2 && t[1] == '}' then Prepend("}", Format(t[2..], fields))
    else if t[0] == '}' then Err(SingleClose)
    else if t[0] == '{' then
      if |t| == 1 then Err(SingleOpen)
      else
        var j := Closing(t, 1, 1);
        if j == -1 then Err(Unclosed)
        else
          var name := t[1..j];
          if '{' in name then Err(BraceInName)
          else if Positional(name) then Err(IndexMessage(name))
          else if name !in fields then Err(KeyMessage(name))
          else Prepend(fields[name], Format(t[j + 1..], fields))
    else Prepend([t[0]], Format(t[1..], fields))
  }

  /** A template as literal text and named replacement fields. */
  datatype Piece = Literal(text: string) | Field(name: string)

  /** The template text of a list of pieces. */
  function Template(ps: seq<Piece>): string {
    if ps == [] then ""
    else (match ps[0] case Literal(s) => s case Field(n) => "{" + n + "}") + Template(ps[1..])
  }

  /** The text with every field replaced by its value. */
  function Fill(ps: seq<Piece>, fields: map<string, string>): string
    requires forall k :: 0 <= k < |ps| && ps[k].Field? ==> ps[k].name in fields
  {
    if ps == [] then ""
    else (match ps[0] case Literal(s) => s case Field(n) => fields[n]) + Fill(ps[1..], fields)
  }

  predicate BraceFree(s: string) {
    '{' !in s && '}' !in s
  }

  /** Literals without braces and fields that name a value. */
  predicate Plain(ps: seq<Piece>, fields: map<string, string>) {
    forall k :: 0 <= k < |ps| ==>
      match ps[k]
      case Literal(s) => BraceFree(s)
      case Field(n) => BraceFree(n) && !Positional(n) && n in fields
  }

  lemma {:induction false} FormatLiteral(s: string, rest: string, fields: map<string, string>)
    requires BraceFree(s)
    ensures Format(s + rest, fields) == Prepend(s, Format(rest, fields))
    decreases |s|
  {
    if s == [] {
      assert s + rest == rest;
      var r := Format(rest, fields);
      if r.Ok? {
        assert s + r.value == r.value;
      }
    } else {
      var t := s + rest;
      assert t[0] == s[0] && t[1..] == s[1..] + rest;
      assert s[0] != '{' && s[0] != '}' by { assert s[0] in s; }
      assert BraceFree(s[1..]) by {
        assert forall c :: c in s[1..] ==> c in s;
      }
      FormatLiteral(s[1..], rest, fields);
      var r := Format(rest, fields);
      if r.Ok? {
        assert [s[0]] + (s[1..] + r.value) == s + r.value;
      }
    }
  }

  /** With no brace between `i` and a `}` at `j`, that `}` closes the field. */
  lemma {:induction false} ClosingAt(t: string, i: nat, j: nat)
    requires i <= j < |t| && t[j] == '}'
    requires forall k :: i <= k < j ==> t[k] != '{' && t[k] != '}'
    ensures Closing(t, i, 1) == j
    decreases j - i
  {
    if i < j {
      ClosingAt(t, i + 1, j);
    }
  }

  /** With no brace from `i` on, the field is never closed. */
  lemma {:induction false} ClosingNone(t: string, i: nat)
    requires forall k :: i <= k < |t| ==> t[k] != '{' && t[k] != '}'
    ensures Closing(t, i, 1) == -1
    decreases |t| - i
  {
    if i < |t| {
      ClosingNone(t, i + 1);
    }
  }

  /** A field `{n}` is replaced by the value of `n`; it raises the
      `IndexError` of a positional field, or the `KeyError` of `n` when no
      value is given for it. */
  lemma FormatField(n: string, rest: string, fields: map<string, string>)
    requires BraceFree(n)
    ensures Format("{" + n + "}" + rest, fields) ==
            if Positional(n) then Err(IndexMessage(n))
            else if n in fields then Prepend(fields[n], Format(rest, fields)) else Err(KeyMessage(n))
  {
    var t := "{" + n + "}" + rest;
    var j := |n| + 1;
    assert t[j] == '}';
    assert forall k :: 1 <= k < j ==> t[k] == n[k - 1];
    assert forall k :: 1 <= k < j ==> t[k] != '{' && t[k] != '}' by {
      forall k | 1 <= k < j ensures t[k] != '{' && t[k] != '}' {
        assert t[k] == n[k - 1] && n[k - 1] in n;
      }
    }
    ClosingAt(t, 1, j);
    assert t[1..j] == n;
    assert t[j + 1..] == rest;
    if |n| == 0 {
      assert t[1] == '}';
    } else {
      assert t[1] == n[0] && n[0] in n;
    }
  }

  lemma PrependTwice(a: string, b: string, r: Result<string, string>)
    ensures Prepend(a, Prepend(b, r)) == Prepend(a + b, r)
  {
    if r.Ok? {
      assert a + (b + r.value) == (a + b) + r.value;
    }
  }

  /** Formatting brace-free pieces and then more text fills in the pieces
      and goes on with the rest: a fault in the rest is the first fault. */
  lemma {:induction false} FormatTemplateThen(ps: seq<Piece>, x: string, fields: map<string, string>)
    requires Plain(ps, fields)
    ensures Format(Template(ps) + x, fields) == Prepend(Fill(ps, fields), Format(x, fields))
    decreases |ps|
  {
    if ps == [] {
      assert Template(ps) + x == x;
      var r := Format(x, fields);
      if r.Ok? {
        assert "" + r.value == r.value;
      }
    } else {
      assert Plain(ps[1..], fields) by {
        forall k | 0 <= k < |ps| - 1 ensures ps[1..][k] == ps[k + 1] { }
      }
      FormatTemplateThen(ps[1..], x, fields);
      var tail := Template(ps[1..]) + x;
      match ps[0]
      case Literal(s) =>
        assert BraceFree(s) by { assert ps[0] == Literal(s); }
        assert Template(ps) + x == s + tail;
        FormatLiteral(s, tail, fields);
        PrependTwice(s, Fill(ps[1..], fields), Format(x, fields));
      case Field(n) =>
        assert BraceFree(n) && !Positional(n) && n in fields by { assert ps[0] == Field(n); }
        assert Template(ps) + x == "{" + n + "}" + tail;
        FormatField(n, tail, fields);
        PrependTwice(fields[n], Fill(ps[1..], fields), Format(x, fields));
    }
  }

  /** Formatting the text of brace-free pieces fills in every field. */
  lemma FormatOfTemplate(ps: seq<Piece>, fields: map<string, string>)
    requires Plain(ps, fields)
    ensures Format(Template(ps), fields) == Ok(Fill(ps, fields))
  {
    FormatTemplateThen(ps, "", fields);
    assert Template(ps) + "" == Template(ps);
    assert Fill(ps, fields) + "" == Fill(ps, fields);
  }

  /** After well-formed text, an unknown field name raises its `KeyError`. */
  lemma FormatUnknownName(ps: seq<Piece>, n: string, rest: string, fields: map<string, string>)
    requires Plain(ps, fields) && BraceFree(n) && !Positional(n) && n !in fields
    ensures Format(Template(ps) + "{" + n + "}" + rest, fields) == Err(KeyMessage(n))
  {
    assert Template(ps) + "{" + n + "}" + rest == Template(ps) + ("{" + n + "}" + rest);
    FormatTemplateThen(ps, "{" + n + "}" + rest, fields);
    FormatField(n, rest, fields);
  }

  /** After well-formed text, a field named by digits or by nothing
      raises `IndexError`, since `format` has no positional arguments. */
  lemma FormatPositionalField(ps: seq<Piece>, n: string, rest: string, fields: map<string, string>)
    requires Plain(ps, fields) && BraceFree(n) && Positional(n)
    ensures Format(Template(ps) + "{" + n + "}" + rest, fields) == Err(IndexMessage(n))
  {
    assert Template(ps) + "{" + n + "}" + rest == Template(ps) + ("{" + n + "}" + rest);
    FormatTemplateThen(ps, "{" + n + "}" + rest, fields);
    FormatField(n, rest, fields);
  }

  /** After well-formed text, a lone `}` raises Python's `ValueError`. */
  lemma FormatLoneClose(ps: seq<Piece>, rest: string, fields: map<string, string>)
    requires Plain(ps, fields) && (rest == [] || rest[0] != '}')
    ensures Format(Template(ps) + "}" + rest, fields) == Err(SingleClose)
  {
    var t := "}" + rest;
    assert Template(ps) + "}" + rest == Template(ps) + t;
    FormatTemplateThen(ps, t, fields);
    assert t[0] == '}' && (|t| == 1 || t[1] != '}');
    assert Format(t, fields) == Err(SingleClose);
  }

  /** After well-formed text, a `{` at the end or a field left open raise
      Python's `ValueError`. */
  lemma FormatUnclosed(ps: seq<Piece>, n: string, fields: map<string, string>)
    requires Plain(ps, fields) && BraceFree(n)
    ensures Format(Template(ps) + "{" + n, fields) == Err(if n == [] then SingleOpen else Unclosed)
  {
    var t := "{" + n;
    assert Template(ps) + "{" + n == Template(ps) + t;
    FormatTemplateThen(ps, t, fields);
    if n != [] {
      assert forall k :: 1 <= k < |t| ==> t[k] != '{' && t[k] != '}' by {
        forall k | 1 <= k < |t| ensures t[k] != '{' && t[k] != '}' {
          assert t[k] == n[k - 1] && n[k - 1] in n;
        }
      }
      ClosingNone(t, 1);
      assert t[1] == n[0] && n[0] in n;
      assert Format(t, fields) == Err(Unclosed);
    } else {
      assert t == "{";
    }
  }
}
