/**
 The names the coordination layer writes: decimal and hexadecimal renderings,
 sanitised store keys, assignment ids, connection keys.
 */
module Names {

  /** A digit character; `ten` is 'a' or 'A' for lower or upper case hexadecimal. */
  function DigitChar(d: nat, ten: char): char
    requires d < 16 && (ten == 'a' || ten == 'A')
  {
    if d < 10 then ('0' as int + d) as char else (ten as int + d - 10) as char
  }

  function DigitValue(c: char, ten: char): nat
  {
    if '0' <= c <= '9' then c as int - '0' as int
    else if ten <= c && c as int < ten as int + 6 then c as int - ten as int + 10
    else 0
  }

  predicate Radix(radix: nat, ten: char)
  {
    (radix == 10 || radix == 16) && (ten == 'a' || ten == 'A')
  }

  /** Positional rendering without leading zeros, as integers are displayed. */
  function Render(n: nat, radix: nat, ten: char): (s: string)
    requires Radix(radix, ten)
  {
    if n < radix then [DigitChar(n, ten)]
    else Render(n / radix, radix, ten) + [DigitChar(n % radix, ten)]
  }

  /** The number a digit string stands for. */
  function Value(s: string, radix: nat, ten: char): nat
  {
    if s == [] then 0
    else Value(s[..|s| - 1], radix, ten) * radix + DigitValue(s[|s| - 1], ten)
  }

  predicate IsAsciiAlphanumeric(c: char)
  {
    '0' <= c <= '9' || 'a' <= c <= 'z' || 'A' <= c <= 'Z'
  }

  lemma {:induction false} RenderIsAlphanumeric(n: nat, radix: nat, ten: char)
    requires Radix(radix, ten)
    ensures Render(n, radix, ten) != []
    ensures forall c | c in Render(n, radix, ten) :: IsAsciiAlphanumeric(c)
  {
    if n >= radix {
      RenderIsAlphanumeric(n / radix, radix, ten);
    }
  }

  lemma DigitRoundTrip(d: nat, ten: char)
    requires d < 16 && (ten == 'a' || ten == 'A')
    ensures DigitValue(DigitChar(d, ten), ten) == d
  {
    if d >= 10 {
      assert DigitChar(d, ten) as int == ten as int + d - 10;
    }
  }

  /** Reading back a rendering gives the number: renderings decode. */
  lemma {:induction false} ValueOfRender(n: nat, radix: nat, ten: char)
    requires Radix(radix, ten)
    ensures Value(Render(n, radix, ten), radix, ten) == n
  {
    var s := Render(n, radix, ten);
    DigitRoundTrip(n % radix, ten);
    if n < radix {
      assert s[..|s| - 1] == [] && Value([], radix, ten) == 0;
    } else {
      ValueOfRender(n / radix, radix, ten);
      assert s[..|s| - 1] == Render(n / radix, radix, ten);
    }
  }

  function Zeros(k: nat): string
  {
    seq(k, _ => '0')
  }

  /** Zero padding on the left to at least `width` characters. */
  function Pad(s: string, width: nat): string
  {
    if |s| < width then Zeros(width - |s|) + s else s
  }

  lemma {:induction false} ValueOfZeros(k: nat, s: string, radix: nat, ten: char)
    requires Radix(radix, ten)
    ensures Value(Zeros(k) + s, radix, ten) == Value(s, radix, ten)
    decreases |s|, k
  {
    var t := Zeros(k) + s;
    if s != [] {
      ValueOfZeros(k, s[..|s| - 1], radix, ten);
      assert t[..|t| - 1] == Zeros(k) + s[..|s| - 1];
    } else if k > 0 {
      ValueOfZeros(k - 1, s, radix, ten);
      assert t[..|t| - 1] == Zeros(k - 1) + s;
    }
  }

  lemma ValueOfPad(n: nat, width: nat, radix: nat, ten: char)
    requires Radix(radix, ten)
    ensures Value(Pad(Render(n, radix, ten), width), radix, ten) == n
    ensures forall c | c in Pad(Render(n, radix, ten), width) :: IsAsciiAlphanumeric(c)
  {
    var s := Render(n, radix, ten);
    ValueOfRender(n, radix, ten);
    RenderIsAlphanumeric(n, radix, ten);
    if |s| < width {
      ValueOfZeros(width - |s|, s, radix, ten);
    }
  }

  function Decimal(n: nat): string
  {
    Render(n, 10, 'a')
  }

  /** The lower case, 32 digit rendering of a request number. */
  function RequestIdOf(n: nat): string
  {
    "req-" + Pad(Render(n, 16, 'a'), 32)
  }

  function AssignmentIdOf(requestId: string, clientId: nat): string
  {
    "assignment:" + requestId + ":" + Decimal(clientId)
  }

  // Splitting a string at a separator that one side does not contain.

  lemma BesideSeparator(a: string, x: string, sep: char, j: nat)
    requires j < |a| + 1 + |x|
    ensures j < |a| ==> (a + [sep] + x)[j] in a
    ensures j > |a| ==> (a + [sep] + x)[j] in x
  {
    if j > |a| {
      assert (a + [sep] + x)[j] == x[j - |a| - 1];
    }
  }

  lemma SplitLast(a: string, x: string, b: string, y: string, sep: char)
    requires a + [sep] + x == b + [sep] + y
    requires sep !in x && sep !in y
    ensures a == b && x == y
  {
    var s := a + [sep] + x;
    assert s[|a|] == sep && s[|b|] == sep;
    BesideSeparator(a, x, sep, |b|);
    BesideSeparator(b, y, sep, |a|);
    assert |a| == |b|;
    assert a == s[..|a|] && b == s[..|a|];
    assert x == s[|a| + 1..] && y == s[|a| + 1..];
  }

  lemma SplitFirst(a: string, x: string, b: string, y: string, sep: char)
    requires a + [sep] + x == b + [sep] + y
    requires sep !in a && sep !in b
    ensures a == b && x == y
  {
    var s := a + [sep] + x;
    assert s[|a|] == sep && s[|b|] == sep;
    BesideSeparator(a, x, sep, |b|);
    BesideSeparator(b, y, sep, |a|);
    assert |a| == |b|;
    assert a == s[..|a|] && b == s[..|a|];
    assert x == s[|a| + 1..] && y == s[|a| + 1..];
  }

  lemma DropPrefix(p: string, x: string, y: string)
    requires p + x == p + y
    ensures x == y
  {
    assert x == (p + x)[|p|..] && y == (p + y)[|p|..];
  }

  lemma DecimalInjective(m: nat, n: nat)
    requires Decimal(m) == Decimal(n)
    ensures m == n
  {
    ValueOfRender(m, 10, 'a');
    ValueOfRender(n, 10, 'a');
  }

  /** An assignment id determines its request and its client, whatever the request id contains. */
  lemma AssignmentIdInjective(r1: string, c1: nat, r2: string, c2: nat)
    requires AssignmentIdOf(r1, c1) == AssignmentIdOf(r2, c2)
    ensures r1 == r2 && c1 == c2
  {
    RenderIsAlphanumeric(c1, 10, 'a');
    RenderIsAlphanumeric(c2, 10, 'a');
    assert AssignmentIdOf(r1, c1) == ("assignment:" + r1) + [':'] + Decimal(c1);
    assert AssignmentIdOf(r2, c2) == ("assignment:" + r2) + [':'] + Decimal(c2);
    SplitLast("assignment:" + r1, Decimal(c1), "assignment:" + r2, Decimal(c2), ':');
    DropPrefix("assignment:", r1, r2);
    DecimalInjective(c1, c2);
  }

  // Store keys.

  predicate IsKeySafe(c: char)
  {
    IsAsciiAlphanumeric(c) || c == '-' || c == '_'
  }

  function SanitizeChar(c: char): char
  {
    if IsKeySafe(c) then c else '_'
  }

  function SanitizeToken(value: string): (key: string)
    ensures |key| == |value|
    ensures forall i | 0 <= i < |key| :: key[i] == SanitizeChar(value[i])
  {
    seq(|value|, i requires 0 <= i < |value| => SanitizeChar(value[i]))
  }

  function KeyServer(serverId: string): string
  {
    SanitizeToken(serverId)
  }

  function KeyClient(clientId: nat): string
  {
    Decimal(clientId)
  }

  function KeyAssignment(assignmentId: string): string
  {
    SanitizeToken(assignmentId)
  }

  function KeyConnection(serverId: string, clientId: nat): string
  {
    KeyServer(serverId) + "." + KeyClient(clientId)
  }

  /** Characters that an underscore stands for in a key: all but the ASCII letters and digits and the dash. */
  predicate Flattened(c: char)
  {
    var code := c as int;
    !(48 <= code <= 57 || 65 <= code <= 90 || 97 <= code <= 122 || code == 45)
  }

  /**
   Exactly which ids share a key: same length, and wherever they differ both
   characters are ones that an underscore stands for.
   */
  lemma SanitizeCollision(a: string, b: string)
    ensures SanitizeToken(a) == SanitizeToken(b) <==>
            |a| == |b| && forall i | 0 <= i < |a| && a[i] != b[i] :: Flattened(a[i]) && Flattened(b[i])
  {
    assert forall c :: SanitizeChar(c) == '_' <==> Flattened(c);
    var x, y := SanitizeToken(a), SanitizeToken(b);
    if x == y {
      forall i | 0 <= i < |a| && a[i] != b[i]
        ensures SanitizeChar(a[i]) == '_' && SanitizeChar(b[i]) == '_'
      {
        assert x[i] == y[i];
      }
    } else if |a| == |b| {
      var i :| 0 <= i < |x| && x[i] != y[i];
      assert a[i] != b[i];
    }
  }

  lemma SanitizeConcat(a: string, b: string)
    ensures SanitizeToken(a + b) == SanitizeToken(a) + SanitizeToken(b)
  {
  }

  lemma SanitizeSafe(a: string)
    requires forall c | c in a :: IsKeySafe(c)
    ensures SanitizeToken(a) == a
  {
  }

  lemma KeyClientInjective()
    ensures forall c: nat, d: nat :: KeyClient(c) == KeyClient(d) ==> c == d
  {
    forall c: nat, d: nat | KeyClient(c) == KeyClient(d)
      ensures c == d
    {
      DecimalInjective(c, d);
    }
  }

  /** A connection key determines the server key and the client: sanitised keys hold no dot. */
  lemma KeyConnectionDecodes(s1: string, c1: nat, s2: string, c2: nat)
    ensures KeyConnection(s1, c1) == KeyConnection(s2, c2) <==>
            KeyServer(s1) == KeyServer(s2) && c1 == c2
  {
    if KeyConnection(s1, c1) == KeyConnection(s2, c2) {
      SplitFirst(KeyServer(s1), KeyClient(c1), KeyServer(s2), KeyClient(c2), '.');
      DecimalInjective(c1, c2);
    }
  }

  lemma SanitizePrefix()
    ensures SanitizeToken("assignment:req-") == "assignment_req-"
    ensures SanitizeToken(":") == "_"
  {
    var p, q := "assignment:req-", "assignment_req-";
    forall i | 0 <= i < |p|
      ensures SanitizeChar(p[i]) == q[i]
    {
    }
  }

  lemma Regrouped(a: string, b: string, c: string, d: string, e: string)
    ensures a + (b + c) + d + e == (a + b) + (c + (d + e))
  {
  }

  lemma KeyAssignmentShape(n: nat, c: nat)
    ensures KeyAssignment(AssignmentIdOf(RequestIdOf(n), c)) ==
            "assignment_req-" + (Pad(Render(n, 16, 'a'), 32) + ['_'] + Decimal(c))
  {
    var hex, dec := Pad(Render(n, 16, 'a'), 32), Decimal(c);
    ValueOfPad(n, 32, 16, 'a');
    RenderIsAlphanumeric(c, 10, 'a');
    ShapeOf(hex, dec);
    Regrouped("assignment:", "req-", hex, ":", dec);
    assert "assignment:" + "req-" == "assignment:req-";
  }

  lemma ShapeOf(hex: string, dec: string)
    requires forall c | c in hex + dec :: IsKeySafe(c)
    ensures SanitizeToken("assignment:req-" + (hex + (":" + dec))) ==
            "assignment_req-" + (hex + ['_'] + dec)
  {
    SanitizePrefix();
    SanitizeSafe(hex);
    SanitizeSafe(dec);
    SanitizeConcat("assignment:req-", hex + (":" + dec));
    SanitizeConcat(hex, ":" + dec);
    SanitizeConcat(":", dec);
    assert hex + ("_" + dec) == hex + ['_'] + dec;
  }

  /** Sanitising keeps generated assignment ids apart. */
  lemma KeyAssignmentInjective(n1: nat, c1: nat, n2: nat, c2: nat)
    requires KeyAssignment(AssignmentIdOf(RequestIdOf(n1), c1)) ==
             KeyAssignment(AssignmentIdOf(RequestIdOf(n2), c2))
    ensures n1 == n2 && c1 == c2
  {
    var hex1, hex2 := Pad(Render(n1, 16, 'a'), 32), Pad(Render(n2, 16, 'a'), 32);
    KeyAssignmentShape(n1, c1);
    KeyAssignmentShape(n2, c2);
    ValueOfPad(n1, 32, 16, 'a');
    ValueOfPad(n2, 32, 16, 'a');
    DropPrefix("assignment_req-", hex1 + ['_'] + Decimal(c1), hex2 + ['_'] + Decimal(c2));
    SplitFirst(hex1, Decimal(c1), hex2, Decimal(c2), '_');
    DecimalInjective(c1, c2);
  }
}
