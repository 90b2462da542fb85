/** The log lines that ExpressWrapper.start() writes, and the decimal rendering
    of the port that a JavaScript template literal performs on an integer. */
module Messages {

  predicate IsDigit(c: char) {
    '0' <= c <= '9'
  }

  predicate AllDigits(s: string) {
    forall i :: 0 <= i < |s| ==> IsDigit(s[i])
  }

  function DigitValue(c: char): (d: nat)
    requires IsDigit(c)
    ensures d < 10
  {
    c as int - '0' as int
  }

  function DigitChar(d: nat): (c: char)
    requires d < 10
    ensures IsDigit(c) && DigitValue(c) == d
  {
    ('0' as int + d) as char
  }

  /** Decimal digits of n, most significant first, without leading zeros. */
  function Digits(n: nat): (s: string)
    ensures |s| > 0 && AllDigits(s)
    ensures |s| > 1 ==> s[0] != '0'
    decreases n
  {
    if n < 10 then [DigitChar(n)] else Digits(n / 10) + [DigitChar(n % 10)]
  }

  /** The number a string of decimal digits denotes: the inverse of Digits. */
  function DecimalValue(s: string): (n: nat)
    requires AllDigits(s)
    decreases |s|
  {
    if s == [] then 0 else DecimalValue(s[..|s| - 1]) * 10 + DigitValue(s[|s| - 1])
  }

  lemma {:induction false} DigitsRoundTrip(n: nat)
    ensures DecimalValue(Digits(n)) == n
    decreases n
  {
    if n >= 10 {
      var s := Digits(n);
      assert s[..|s| - 1] == Digits(n / 10);
      DigitsRoundTrip(n / 10);
    }
  }

  /** How `${port}` renders an integer whose magnitude is below 10^21 (every
      TCP port is): an optional minus sign, then its digits. Larger Numbers are
      rendered in exponent form by JavaScript, which this function does not do. */
  function Show(i: int): (s: string)
    ensures |s| > 0
    ensures i >= 0 && |s| > 1 ==> s[0] != '0'
    ensures i < 0 ==> |s| > 1 && s[1] != '0'
    ensures i >= 0 ==> AllDigits(s) && DecimalValue(s) == i
    ensures i < 0 ==> |s| > 1 && s[0] == '-' && AllDigits(s[1..]) && DecimalValue(s[1..]) == -i
  {
    if i < 0 then
      DigitsRoundTrip(-i);
      assert ("-" + Digits(-i))[1..] == Digits(-i);
      "-" + Digits(-i)
    else
      DigitsRoundTrip(i);
      Digits(i)
  }

  /** Length of the run of decimal digits that starts a string. */
  function LeadingDigits(w: string): (n: nat)
    ensures n <= |w|
  {
    if w == [] || !IsDigit(w[0]) then 0 else 1 + LeadingDigits(w[1..])
  }

  lemma {:induction false} LeadingDigitsOfDigitsThenText(x: string, u: string)
    requires AllDigits(x)
    requires u == [] || !IsDigit(u[0])
    ensures LeadingDigits(x + u) == |x|
    decreases |x|
  {
    if x != [] {
      assert (x + u)[1..] == x[1..] + u;
      LeadingDigitsOfDigitsThenText(x[1..], u);
    }
  }

  /** A rendered integer followed by text that does not continue it (empty, or
      starting with a non-digit) can be split back into the integer and the text. */
  lemma ShowThenTextSplits(a: int, u: string, b: int, v: string)
    requires u == [] || !IsDigit(u[0])
    requires v == [] || !IsDigit(v[0])
    requires Show(a) + u == Show(b) + v
    ensures a == b && u == v
  {
    var m, n := Magnitude(a), Magnitude(b);
    var da, db := Digits(m), Digits(n);
    ShowShape(a);
    ShowShape(b);
    Associative(Sign(a), da, u);
    Associative(Sign(b), db, v);
    SignThenDigitsSplits(Sign(a), da + u, Sign(b), db + v);
    DigitsThenTextSplits(m, u, n, v);
  }

  function Magnitude(i: int): (m: nat) {
    if i < 0 then -i else i
  }

  function Sign(i: int): (s: string) {
    if i < 0 then "-" else ""
  }

  lemma ShowShape(i: int)
    ensures Show(i) == Sign(i) + Digits(Magnitude(i))
  {
  }

  lemma Associative(x: string, y: string, z: string)
    ensures x + y + z == x + (y + z)
  {
  }

  lemma SignThenDigitsSplits(sa: string, x: string, sb: string, y: string)
    requires sa == "-" || sa == ""
    requires sb == "-" || sb == ""
    requires |x| > 0 && IsDigit(x[0]) && |y| > 0 && IsDigit(y[0])
    requires sa + x == sb + y
    ensures sa == sb && x == y
  {
    var w := sa + x;
    assert w[0] == '-' <==> sa == "-";
    assert w[0] == '-' <==> sb == "-";
    assert x == w[|sa|..] && y == w[|sb|..];
  }

  lemma DigitsThenTextSplits(m: nat, u: string, n: nat, v: string)
    requires u == [] || !IsDigit(u[0])
    requires v == [] || !IsDigit(v[0])
    requires Digits(m) + u == Digits(n) + v
    ensures m == n && u == v
  {
    var x, y := Digits(m), Digits(n);
    LeadingDigitsOfDigitsThenText(x, u);
    LeadingDigitsOfDigitsThenText(y, v);
    assert x == (x + u)[..|x|] && y == (y + v)[..|y|];
    assert u == (x + u)[|x|..] && v == (y + v)[|y|..];
    DigitsRoundTrip(m);
    DigitsRoundTrip(n);
  }

  lemma ShowInjective(a: int, b: int)
    ensures Show(a) == Show(b) <==> a == b
  {
    if Show(a) == Show(b) {
      assert Show(a) + "" == Show(b) + "";
      ShowThenTextSplits(a, "", b, "");
    }
  }

  /** A line that start() gives to the logger, before it is rendered. */
  datatype Line =
    | Starting(port: int)
    | Started(port: int)
    | AlreadyStarted(port: int)
    | ListenFailed(port: int, reason: string)

  /** The exact text of each line, with the port rendered as `${port}` renders
      an integer of magnitude below 10^21. */
  function Text(line: Line): (s: string)
    ensures !line.ListenFailed? ==> |s| > 0 && s[|s| - 1] == '.'
    ensures line.ListenFailed? ==>
      |s| >= |line.reason| + 2 && s[|s| - |line.reason| - 2..] == ": " + line.reason
  {
    match line
    case Starting(p) => "Starting Express Application on port " + Show(p) + "..."
    case Started(p) => "Express Application started successfully on port " + Show(p) + "."
    case AlreadyStarted(p) => "Express Application on port " + Show(p) + " has been already started."
    case ListenFailed(p, reason) =>
      "Error when starting Express Application on port " + Show(p) + (": " + reason)
  }

  /** Two lines have the same text exactly when they are the same line: no
      line can be mistaken for another kind, each names its port, and the
      error line names the listen error's message. */
  lemma TextInjective(a: Line, b: Line)
    ensures Text(a) == Text(b) <==> a == b
  {
    if Text(a) == Text(b) {
      if a.Starting? && b.Starting? {
        WithPrefixDeterminesPort("Starting Express Application on port ", a.port, "...", b.port, "...");
      } else if a.Started? && b.Started? {
        WithPrefixDeterminesPort("Express Application started successfully on port ", a.port, ".", b.port, ".");
      } else if a.AlreadyStarted? && b.AlreadyStarted? {
        WithPrefixDeterminesPort("Express Application on port ", a.port, " has been already started.",
          b.port, " has been already started.");
      } else if a.ListenFailed? && b.ListenFailed? {
        WithPrefixDeterminesPort("Error when starting Express Application on port ", a.port, ": " + a.reason,
          b.port, ": " + b.reason);
        assert (": " + a.reason)[2..] == a.reason && (": " + b.reason)[2..] == b.reason;
      } else {
        KindsDiffer(a, b);
      }
    }
  }

  /** Lines of different kinds differ at a position inside both fixed prefixes. */
  lemma KindsDiffer(a: Line, b: Line)
    requires a.Starting? != b.Starting? || a.Started? != b.Started? || a.AlreadyStarted? != b.AlreadyStarted?
    ensures Text(a) != Text(b)
  {
    KindMark(a);
    KindMark(b);
  }

  /** Characters at fixed positions of a line's prefix that tell its kind apart. */
  lemma KindMark(a: Line)
    ensures a.Starting? ==> |Text(a)| > 36 && Text(a)[36] == ' ' && Text(a)[27] == 'n'
    ensures a.Started? ==> |Text(a)| > 47 && Text(a)[36] == 'u' && Text(a)[26] == 'd' && Text(a)[47] == 't'
    ensures a.AlreadyStarted? ==> |Text(a)| > 27 && Text(a)[27] == ' ' && Text(a)[26] == 't'
    ensures a.ListenFailed? ==> |Text(a)| > 47 && Text(a)[36] == 'i' && Text(a)[47] == ' ' && Text(a)[26] == 's'
  {
    match a
    case Starting(p) => StartingMark(p);
    case Started(p) => StartedMark(p);
    case AlreadyStarted(p) => AlreadyStartedMark(p);
    case ListenFailed(p, reason) => ListenFailedMark(p, reason);
  }

  lemma StartingMark(p: int)
    ensures var x := Text(Starting(p)); |x| > 36 && x[36] == ' ' && x[27] == 'n'
  {
    var pre := "Starting Express Application on port ";
    assert pre[36] == ' ' && pre[27] == 'n';
    PrefixAt(pre, Show(p), 36);
    PrefixAt(pre, Show(p), 27);
    PrefixAt(pre + Show(p), "...", 36);
    PrefixAt(pre + Show(p), "...", 27);
  }

  lemma StartedMark(p: int)
    ensures var x := Text(Started(p)); |x| > 47 && x[36] == 'u' && x[26] == 'd' && x[47] == 't'
  {
    var pre := "Express Application started successfully on port ";
    assert pre[36] == 'u' && pre[26] == 'd' && pre[47] == 't';
    PrefixAt(pre, Show(p), 36);
    PrefixAt(pre, Show(p), 26);
    PrefixAt(pre, Show(p), 47);
    PrefixAt(pre + Show(p), ".", 36);
    PrefixAt(pre + Show(p), ".", 26);
    PrefixAt(pre + Show(p), ".", 47);
  }

  lemma AlreadyStartedMark(p: int)
    ensures var x := Text(AlreadyStarted(p)); |x| > 27 && x[27] == ' ' && x[26] == 't'
  {
    var pre := "Express Application on port ";
    assert pre[27] == ' ' && pre[26] == 't';
    PrefixAt(pre, Show(p), 27);
    PrefixAt(pre, Show(p), 26);
    PrefixAt(pre + Show(p), " has been already started.", 27);
    PrefixAt(pre + Show(p), " has been already started.", 26);
  }

  lemma ListenFailedMark(p: int, reason: string)
    ensures var x := Text(ListenFailed(p, reason)); |x| > 47 && x[36] == 'i' && x[47] == ' ' && x[26] == 's'
  {
    var pre := "Error when starting Express Application on port ";
    assert pre[36] == 'i' && pre[47] == ' ' && pre[26] == 's';
    PrefixAt(pre, Show(p), 36);
    PrefixAt(pre, Show(p), 47);
    PrefixAt(pre, Show(p), 26);
    var tail := ": " + reason;
    PrefixAt(pre + Show(p), tail, 36);
    PrefixAt(pre + Show(p), tail, 47);
    PrefixAt(pre + Show(p), tail, 26);
  }

  lemma PrefixAt(pre: string, w: string, k: nat)
    requires k < |pre|
    ensures |pre + w| > k && (pre + w)[k] == pre[k]
  {
  }

  lemma DropPrefix(pre: string, w: string)
    ensures (pre + w)[|pre|..] == w
  {
  }

  lemma WithPrefixDeterminesPort(pre: string, p: int, u: string, q: int, v: string)
    requires u == [] || !IsDigit(u[0])
    requires v == [] || !IsDigit(v[0])
    ensures pre + Show(p) + u == pre + Show(q) + v ==> p == q && u == v
  {
    if pre + Show(p) + u == pre + Show(q) + v {
      Associative(pre, Show(p), u);
      Associative(pre, Show(q), v);
      DropPrefix(pre, Show(p) + u);
      DropPrefix(pre, Show(q) + v);
      ShowThenTextSplits(p, u, q, v);
    }
  }
}
