/** Compact JSON as the serialiser emits it: objects in field order, no blanks, decimal
    integers, and strings escaped as section 7 of RFC 8259 allows (the two-character
    escapes, `\u00xx` in lower case for the other control characters, everything else
    verbatim). Main result: a reader by the rules of that RFC gets the value back. */
module Json {
  import opened Crds

  datatype Json = Str(s: string) | Num(n: nat) | Bool(b: bool) | Obj(members: Members)

  datatype Members = End | Field(name: string, value: Json, rest: Members)

  // ---------- Emission: each function puts its text in front of `tail` ----------

  function HexDigit(n: nat): char
    requires n < 16
  {
    if n < 10 then '0' + n as char else 'a' + (n - 10) as char
  }

  function Escape(c: char): string {
    match c
    case '\"' => ['\\', '\"']
    case '\\' => ['\\', '\\']
    case '\n' => ['\\', 'n']
    case '\r' => ['\\', 'r']
    case '\t' => ['\\', 't']
    case _ =>
      if c as int == 8 then ['\\', 'b']
      else if c as int == 12 then ['\\', 'f']
      else if c as int < 32 then ['\\', 'u', '0', '0', HexDigit(c as int / 16), HexDigit(c as int % 16)]
      else [c]
  }

  function EscapeAll(s: string, tail: string): string {
    if s == "" then tail else Escape(s[0]) + EscapeAll(s[1..], tail)
  }

  function Quote(s: string, tail: string): string {
    ['\"'] + EscapeAll(s, ['\"'] + tail)
  }

  function Digit(n: nat): char
    requires n < 10
  {
    '0' + n as char
  }

  function Decimal(n: nat): string {
    if n < 10 then [Digit(n)] else Decimal(n / 10) + [Digit(n % 10)]
  }

  function Emit(j: Json, tail: string): string {
    match j
    case Str(s) => Quote(s, tail)
    case Num(n) => Decimal(n) + tail
    case Bool(b) => (if b then ['t', 'r', 'u', 'e'] else ['f', 'a', 'l', 's', 'e']) + tail
    case Obj(members) => ['{'] + EmitMembers(members, true, tail)
  }

  function EmitMembers(members: Members, first: bool, tail: string): string {
    match members
    case End => ['}'] + tail
    case Field(name, value, rest) =>
      var member := Quote(name, [':'] + Emit(value, EmitMembers(rest, false, tail)));
      if first then member else [','] + member
  }

  /** The serialised form of a value. */
  function Text(j: Json): string {
    Emit(j, "")
  }

  // ---------- Reading: RFC 8259 without blanks, null, arrays, and numbers other than naturals ----------

  predicate IsDigit(c: char) {
    '0' <= c <= '9'
  }

  function HexValue(c: char): Option<nat> {
    if '0' <= c <= '9' then Some(c as nat - '0' as nat)
    else if 'a' <= c <= 'f' then Some(c as nat - 'a' as nat + 10)
    else if 'A' <= c <= 'F' then Some(c as nat - 'A' as nat + 10)
    else None
  }

  /** Four hexadecimal digits that stand for a character (section 7). */
  function HexChar(s: string): Option<char>
    requires |s| == 4
  {
    var a, b, c, d := HexValue(s[0]), HexValue(s[1]), HexValue(s[2]), HexValue(s[3]);
    if a.None? || b.None? || c.None? || d.None? then None
    else
      var n := ((a.value * 16 + b.value) * 16 + c.value) * 16 + d.value;
      if n < 0xD800 || 0xE000 <= n < 0x11_0000 then Some(n as char) else None
  }

  /** The character that follows a backslash stands for (section 7). */
  function TwoCharacter(c: char): Option<char> {
    match c
    case '\"' => Some(34 as char)
    case '\\' => Some(92 as char)
    case '/' => Some(47 as char)
    case 'b' => Some(8 as char)
    case 'f' => Some(12 as char)
    case 'n' => Some(10 as char)
    case 'r' => Some(13 as char)
    case 't' => Some(9 as char)
    case _ => None
  }

  /** What an escape means, from behind its backslash, and the rest. */
  function ReadEscape(s: string): (r: Option<(char, string)>)
    ensures r.Some? ==> |r.value.1| < |s|
  {
    if s == "" then None
    else if s[0] == 'u' then
      if |s| < 5 || HexChar(s[1..5]).None? then None else Some((HexChar(s[1..5]).value, s[5..]))
    else if TwoCharacter(s[0]).None? then None
    else Some((TwoCharacter(s[0]).value, s[1..]))
  }

  /** A string from behind its opening quotation mark, and what follows the closing one. */
  function ReadChars(s: string): (r: Option<(string, string)>)
    ensures r.Some? ==> |r.value.1| < |s|
    decreases |s|
  {
    if s == "" || s[0] as int < 32 then None
    else if s[0] == '\"' then Some(("", s[1..]))
    else
      var next := if s[0] == '\\' then ReadEscape(s[1..]) else Some((s[0], s[1..]));
      if next.None? then None
      else
        var more := ReadChars(next.value.1);
        if more.None? then None else Some(([next.value.0] + more.value.0, more.value.1))
  }

  /** The digits a text starts with, and the rest. */
  function SplitDigits(s: string): (r: (string, string))
    ensures r.0 + r.1 == s && forall i :: 0 <= i < |r.0| ==> IsDigit(r.0[i])
  {
    if s == "" || !IsDigit(s[0]) then ("", s)
    else
      var more := SplitDigits(s[1..]);
      ([s[0]] + more.0, more.1)
  }

  function DigitValue(c: char): nat
    requires IsDigit(c)
  {
    c as int - '0' as int
  }

  function DigitsValue(digits: string): nat
    requires forall i :: 0 <= i < |digits| ==> IsDigit(digits[i])
  {
    if digits == "" then 0
    else DigitsValue(digits[..|digits| - 1]) * 10 + DigitValue(digits[|digits| - 1])
  }

  /** No leading zeros (section 6). */
  function ReadNumber(s: string): (r: Option<(nat, string)>)
    ensures r.Some? ==> |r.value.1| < |s|
  {
    var (digits, rest) := SplitDigits(s);
    if digits == "" || (|digits| > 1 && digits[0] == '0') then None else Some((DigitsValue(digits), rest))
  }

  function ReadValue(s: string): (r: Option<(Json, string)>)
    ensures r.Some? ==> |r.value.1| < |s|
    decreases |s|
  {
    if s == "" then None
    else if s[0] == '\"' then
      var r := ReadChars(s[1..]);
      if r.None? then None else Some((Str(r.value.0), r.value.1))
    else if s[0] == '{' then
      var r := ReadMembers(s[1..], true);
      if r.None? then None else Some((Obj(r.value.0), r.value.1))
    else if IsDigit(s[0]) then
      var r := ReadNumber(s);
      if r.None? then None else Some((Num(r.value.0), r.value.1))
    else if |s| >= 4 && s[..4] == "true" then Some((Bool(true), s[4..]))
    else if |s| >= 5 && s[..5] == "false" then Some((Bool(false), s[5..]))
    else None
  }

  /** Members from behind the opening brace, or from behind a member, and what follows the closing brace. */
  function ReadMembers(s: string, first: bool): (r: Option<(Members, string)>)
    ensures r.Some? ==> |r.value.1| < |s|
    decreases |s|
  {
    if s == "" then None
    else if s[0] == '}' then Some((End, s[1..]))
    else if !first && s[0] != ',' then None
    else
      var quoted := if first then s else s[1..];
      if quoted == "" || quoted[0] != '\"' then None
      else
        var name := ReadChars(quoted[1..]);
        if name.None? || name.value.1 == "" || name.value.1[0] != ':' then None
        else
          var value := ReadValue(name.value.1[1..]);
          if value.None? then None
          else
            var rest := ReadMembers(value.value.1, false);
            if rest.None? then None
            else Some((Field(name.value.0, value.value.0, rest.value.0), rest.value.1))
  }

  /** The value that a whole text stands for. */
  function Read(s: string): Option<Json> {
    var r := ReadValue(s);
    if r.Some? && r.value.1 == "" then Some(r.value.0) else None
  }

  // ---------- Reading what was written ----------

  /** What may follow a value. */
  predicate Delimited(s: string) {
    s == "" || s[0] == ',' || s[0] == '}'
  }

  lemma HexDigitValue(n: nat)
    requires n < 16
    ensures HexValue(HexDigit(n)) == Some(n)
  {
  }

  lemma EscapeRead(c: char, tail: string)
    requires Escape(c)[0] == '\\'
    ensures ReadEscape((Escape(c) + tail)[1..]) == Some((c, tail))
  {
    var x := Escape(c);
    var s := (x + tail)[1..];
    assert s == x[1..] + tail;
    if x[1] == 'u' {
      HexDigitValue(c as int / 16);
      HexDigitValue(c as int % 16);
      assert s[1..5] == x[2..] && s[5..] == tail;
    } else {
      assert s[1..] == tail;
    }
  }

  /** Only what has to be is escaped: by two characters if there is such an escape, else by six, with
      zeros first and digits in lower case. */
  lemma EscapeCanonical(c: char, x: char)
    ensures Escape(c) == [c] <==> c as int >= 32 && c != '\"' && c != '\\'
    ensures c != '/' && TwoCharacter(x) == Some(c) ==> Escape(c) == ['\\', x]
    ensures |Escape(c)| in {1, 2, 6} && (|Escape(c)| == 6 ==> Escape(c)[..4] == "\\u00")
    ensures forall i :: 0 <= i < |Escape(c)| && |Escape(c)| == 6 ==> !('A' <= Escape(c)[i] <= 'F')
  {
  }

  /** Every string, whatever its characters. */
  lemma {:induction false} CharsRead(a: string, tail: string)
    ensures ReadChars(EscapeAll(a, ['\"'] + tail)) == Some((a, tail))
  {
    var rest := ['\"'] + tail;
    if a == "" {
      assert rest[1..] == tail;
    } else {
      CharsRead(a[1..], tail);
      var more := EscapeAll(a[1..], rest);
      var s := Escape(a[0]) + more;
      assert s[0] == Escape(a[0])[0] && a == [a[0]] + a[1..];
      if s[0] == '\\' {
        EscapeRead(a[0], more);
      } else {
        assert s[1..] == more;
      }
    }
  }

  lemma QuoteRead(a: string, tail: string)
    ensures Quote(a, tail)[0] == '\"' && ReadChars(Quote(a, tail)[1..]) == Some((a, tail))
  {
    CharsRead(a, tail);
    assert Quote(a, tail)[1..] == EscapeAll(a, ['\"'] + tail);
  }

  lemma {:induction false} DecimalRead(n: nat)
    ensures Decimal(n) != "" && forall i :: 0 <= i < |Decimal(n)| ==> IsDigit(Decimal(n)[i])
    ensures DigitsValue(Decimal(n)) == n && (n > 0 ==> Decimal(n)[0] != '0') && (|Decimal(n)| > 1 ==> n > 0)
  {
    if n >= 10 {
      DecimalRead(n / 10);
      assert Decimal(n)[..|Decimal(n)| - 1] == Decimal(n / 10);
    } else {
      assert Decimal(n)[..0] == "";
    }
  }

  lemma {:induction false} DigitsSplit(digits: string, tail: string)
    requires Delimited(tail) && forall i :: 0 <= i < |digits| ==> IsDigit(digits[i])
    ensures SplitDigits(digits + tail) == (digits, tail)
  {
    if digits == "" {
      assert digits + tail == tail;
    } else {
      assert (digits + tail)[1..] == digits[1..] + tail && digits == [digits[0]] + digits[1..];
      DigitsSplit(digits[1..], tail);
    }
  }

  lemma NumberRead(n: nat, tail: string)
    requires Delimited(tail)
    ensures ReadValue(Decimal(n) + tail) == Some((Num(n), tail))
  {
    DecimalRead(n);
    DigitsSplit(Decimal(n), tail);
    assert (Decimal(n) + tail)[0] == Decimal(n)[0];
  }

  lemma BoolRead(b: bool, tail: string)
    ensures ReadValue(Emit(Bool(b), tail)) == Some((Bool(b), tail))
  {
    var s := Emit(Bool(b), tail);
    if b { assert s[..4] == "true" && s[4..] == tail; } else { assert s[..5] == "false" && s[5..] == tail; }
  }

  lemma {:induction false} ValueRead(j: Json, tail: string)
    requires Delimited(tail)
    ensures ReadValue(Emit(j, tail)) == Some((j, tail))
    decreases j
  {
    match j
    case Str(s) => QuoteRead(s, tail);
    case Num(n) => NumberRead(n, tail);
    case Bool(b) => BoolRead(b, tail);
    case Obj(members) =>
      MembersRead(members, true, tail);
      assert Emit(j, tail)[1..] == EmitMembers(members, true, tail);
  }

  lemma {:induction false} MembersRead(members: Members, first: bool, tail: string)
    ensures ReadMembers(EmitMembers(members, first, tail), first) == Some((members, tail))
    ensures !first ==> Delimited(EmitMembers(members, first, tail))
    decreases members
  {
    var s := EmitMembers(members, first, tail);
    match members
    case End => assert s[1..] == tail;
    case Field(name, value, rest) =>
      var after := EmitMembers(rest, false, tail);
      var colon := [':'] + Emit(value, after);
      MembersRead(rest, false, tail);
      ValueRead(value, after);
      QuoteRead(name, colon);
      assert colon[1..] == Emit(value, after) && (if first then s else s[1..]) == Quote(name, colon);
  }

  /** The text of a value is read back as that value, */
  lemma TextRead(j: Json)
    ensures Read(Text(j)) == Some(j)
  {
    ValueRead(j, "");
  }

  /** so that equal texts come from equal values. */
  lemma TextInjective(a: Json, b: Json)
    requires Text(a) == Text(b)
    ensures a == b
  {
    TextRead(a);
    TextRead(b);
  }
}
