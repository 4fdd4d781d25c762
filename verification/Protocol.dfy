/** FT8 message text: tokens, classifiers, the three-field view of a message,
    signal reports and the rewriting of reversed call order. Text is ASCII. */
module Protocol {
  import opened Base

  // ---------------------------------------------------------------- text

  predicate IsSpace(c: char) { c == ' ' || c == '\t' || c == '\n' || c == '\r' }

  function UpperChar(c: char): char {
    if 'a' <= c <= 'z' then c - 'a' + 'A' else c
  }

  function Upper(s: string): (r: string)
    ensures |r| == |s|
    ensures forall i :: 0 <= i < |s| ==> r[i] == UpperChar(s[i])
  {
    seq(|s|, i requires 0 <= i < |s| => UpperChar(s[i]))
  }

  function StripLeft(s: string): string {
    if s != [] && IsSpace(s[0]) then StripLeft(s[1..]) else s
  }

  function StripRight(s: string): string {
    if s != [] && IsSpace(s[|s| - 1]) then StripRight(s[..|s| - 1]) else s
  }

  function Strip(s: string): string { StripRight(StripLeft(s)) }

  /** Number of leading characters that are not white space. */
  function WordLength(s: string): (n: nat)
    ensures n <= |s|
    ensures forall i :: 0 <= i < n ==> !IsSpace(s[i])
    ensures n < |s| ==> IsSpace(s[n])
  {
    if s == [] || IsSpace(s[0]) then 0 else 1 + WordLength(s[1..])
  }

  /** The maximal runs of non-blank characters, as `str.split()` gives them. */
  function Split(s: string): (r: seq<string>)
    ensures forall t :: t in r ==> IsToken(t)
    ensures forall t, i :: t in r && 0 <= i < |t| ==> t[i] in s
    decreases |s|
  {
    if s == [] then []
    else if IsSpace(s[0]) then Split(s[1..])
    else
      var n := WordLength(s);
      var rest := Split(s[n..]);
      [s[..n]] + rest
  }

  predicate IsToken(t: string) {
    t != [] && forall i :: 0 <= i < |t| ==> !IsSpace(t[i])
  }

  predicate IsUpper(t: string) {
    forall i :: 0 <= i < |t| ==> UpperChar(t[i]) == t[i]
  }

  // --------------------------------------------------------- classifiers

  predicate IsDigit(c: char) { '0' <= c <= '9' }

  predicate IsLetter(c: char) { 'A' <= c <= 'Z' || 'a' <= c <= 'z' }

  predicate IsReportUpper(t: string) {
    t != "73" && t != "RR73" && t != "RRR" && ('+' in t || '-' in t)
  }

  predicate IsReport(token: string) { IsReportUpper(Upper(token)) }

  predicate IsRReport(token: string) {
    var t := Upper(token);
    IsReportUpper(t) && |t| > 0 && t[0] == 'R'
  }

  predicate IsRrr(token: string) { Upper(token) == "RRR" }

  predicate IsRr73(token: string) { Upper(token) == "RR73" }

  predicate Is73(token: string) { Upper(token) == "73" }

  predicate Grid4(t: string) {
    |t| == 4 && 'A' <= t[0] <= 'R' && 'A' <= t[1] <= 'R' && IsDigit(t[2]) && IsDigit(t[3])
  }

  function StripAngleLeft(t: string): string {
    if t != [] && (t[0] == '<' || t[0] == '>') then StripAngleLeft(t[1..]) else t
  }

  function StripAngleRight(t: string): string {
    if t != [] && (t[|t| - 1] == '<' || t[|t| - 1] == '>') then StripAngleRight(t[..|t| - 1]) else t
  }

  predicate IsGridToken(token: string) {
    var t := Upper(token);
    if IsReportUpper(t) || t == "73" || t == "RR73" || t == "RRR" then false
    else
      var tok := StripAngleRight(StripAngleLeft(t));
      || Grid4(tok)
      || (|tok| >= 6 && Grid4(tok[..4]) && IsLetter(tok[4]) && IsLetter(tok[5]))
  }

  function Grid4Upper(grid: string): string {
    var g := Upper(Strip(grid));
    if |g| <= 4 then g else g[..4]
  }

  // ----------------------------------------------------------- callsigns

  /** A callsign without the angle brackets of a hashed call. */
  function CallKey(call: string): string {
    var t := Upper(Strip(call));
    if |t| >= 2 && t[0] == '<' && t[|t| - 1] == '>' then Strip(t[1..|t| - 1]) else t
  }

  const CQ_MODIFIERS: set<string> := {
    "DX", "POTA", "SOTA", "ASIA", "EU", "EUROPE", "NA", "SA", "AF", "OC", "ANT", "WW", "WWA",
    "TEST", "QRP", "FIELD", "GAI", "SES", "USA", "UA", "AS", "US", "FF", "DE", "QRZ" }

  const SKIP_TOKENS: set<string> := {"CQ", "DX", "DE", "QRZ", "TEST", "RRR", "RR73", "73"}

  function WithoutSign(t: string): string {
    if t != [] && (t[0] == '+' || t[0] == '-') then t[1..] else t
  }

  predicate AllDigits(t: string) {
    forall i :: 0 <= i < |t| ==> IsDigit(t[i])
  }

  predicate SignedShortNumber(t: string) {
    1 <= |WithoutSign(t)| <= 2 && AllDigits(WithoutSign(t))
  }

  predicate ReportLike(t: string) {
    || t == "R" || t == "RR" || t == "RRR" || t == "73" || t == "RR73"
    || SignedShortNumber(t)
    || (t != [] && t[0] == 'R' && SignedShortNumber(t[1..]))
  }

  predicate CallsignAlphabet(t: string) {
    3 <= |t| <= 11 && forall i :: 0 <= i < |t| ==> IsLetter(t[i]) || IsDigit(t[i]) || t[i] == '/'
  }

  function WithoutSlash(t: string): string {
    if t == [] then [] else (if t[0] == '/' then [] else [t[0]]) + WithoutSlash(t[1..])
  }

  predicate LetterDigitAdjacent(t: string) {
    exists i :: 0 <= i < |t| - 1 &&
      ((IsDigit(t[i]) && IsLetter(t[i + 1])) || (IsLetter(t[i]) && IsDigit(t[i + 1])))
  }

  predicate IsCallsignKey(t: string) {
    && t != [] && t !in SKIP_TOKENS && t !in CQ_MODIFIERS
    && !Grid4(t) && !ReportLike(t)
    && CallsignAlphabet(CallKey(t))
    && LetterDigitAdjacent(WithoutSlash(t))
  }

  predicate IsCqModifier(token: string) {
    var t := Strip(Upper(token));
    if t in CQ_MODIFIERS then true
    else if IsCallsignKey(CallKey(t)) then false
    else 0 < |t| <= 4 && forall i :: 0 <= i < |t| ==> IsLetter(t[i])
  }

  predicate ValidRemoteCall(call: string) {
    var t := CallKey(call);
    t != [] && t != "CQ" && IsCallsignKey(t)
  }

  // ------------------------------------------------- three-field messages

  datatype Triplet = Triplet(callA: string, callB: string, third: string) {
    predicate IsCq() { callA == "CQ" }
  }

  /** What the parser makes of a text: it raises, finds no message, or gives the fields. */
  datatype Parsed = Raises | NoMessage | Fields(value: Triplet)

  function Parse(parts: seq<string>): Parsed {
    if parts == [] then NoMessage
    else if parts[0] == "CQ" then
      if |parts| == 1 then Raises
      else if |parts| == 2 then Fields(Triplet("CQ", parts[1], ""))
      else if parts[1] in CQ_MODIFIERS || IsCqModifier(parts[1]) then
        Fields(Triplet("CQ", parts[2], if |parts| > 3 then parts[3] else ""))
      else Fields(Triplet("CQ", parts[1], parts[2]))
    else if |parts| >= 3 then Fields(Triplet(parts[0], parts[1], parts[2]))
    else NoMessage
  }

  function MessageTriplet(message: string): Parsed {
    Parse(Split(Upper(Strip(message))))
  }

  /** A directed message as it is sent: `to de third`. */
  function Directed(to: string, de: string, third: string): string {
    to + " " + de + " " + third
  }

  /** The message with the sender first where it named us first; none where the
      parser raises. */
  function NormalizeCallOrder(message: string, me: string, myGrid4: string): Option<string> {
    var m := Upper(Strip(me));
    if m == [] then Some(Strip(message))
    else
      match MessageTriplet(message)
      case Raises => None
      case NoMessage => Some(Strip(message))
      case Fields(t) => Some(Reordered(Strip(message), t, m, myGrid4))
  }

  function Reordered(message: string, t: Triplet, me: string, myGrid4: string): string {
    if t.IsCq() || t.callB == me || t.callA != me || !ValidRemoteCall(t.callB) then message
    else
      var g4 := Grid4Upper(myGrid4);
      if g4 != [] && IsGridToken(t.third) && Grid4Upper(t.third) == g4 then message
      else if IsReport(t.third) || IsRReport(t.third) || IsGridToken(t.third)
           || IsRr73(t.third) || Is73(t.third) || IsRrr(t.third)
      then Directed(t.callB, me, t.third)
      else message
  }

  // ------------------------------------------------------------- reports

  function DigitChar(n: nat): char
    requires n < 10
  {
    '0' + n as char
  }

  function Digits(n: nat): (r: string)
    ensures |r| >= 1 && forall i :: 0 <= i < |r| ==> IsDigit(r[i])
    ensures n < 10 ==> |r| == 1
    ensures n >= 10 ==> |r| >= 2
    ensures n < 100 ==> |r| <= 2
    ensures n >= 100 ==> |r| >= 3
  {
    if n < 10 then [DigitChar(n)] else Digits(n / 10) + [DigitChar(n % 10)]
  }

  /** `f"{snr:+03d}"`: a sign, then at least two digits. */
  function SnrText(snr: int): (r: string)
    ensures |r| >= 3
    ensures r[0] == if snr < 0 then '-' else '+'
    ensures forall i :: 1 <= i < |r| ==> IsDigit(r[i])
  {
    var body := Digits(if snr < 0 then -snr else snr);
    [if snr < 0 then '-' else '+'] + (if |body| < 2 then "0" + body else body)
  }

  function StripR(t: string): string {
    if t != [] && t[0] == 'R' then StripR(t[1..]) else t
  }

  function DigitValue(c: char): (d: nat)
    requires IsDigit(c)
    ensures d < 10 && DigitChar(d) == c
  {
    (c as int) - ('0' as int)
  }

  function NumberOf(digits: string): (n: nat)
    requires AllDigits(digits)
  {
    if digits == [] then 0
    else NumberOf(digits[..|digits| - 1]) * 10 + DigitValue(digits[|digits| - 1])
  }

  function RstFromReport(token: string): string {
    var t := Upper(token);
    var body := StripR(t);
    if body == "73" || body == "RR73" || body == "RRR" then ""
    else if SignedShortNumber(body) then
      var v: int := NumberOf(WithoutSign(body));
      SnrText(if body[0] == '-' then -v else v)
    else if |t| <= 3 then t else t[..3]
  }
}
