/** What the message layer promises: what is sent parses back, reversed call
    order is repaired once and for all, and signal reports survive the trip. */
module ProtocolProofs {
  import opened Base
  import opened Protocol

  // ------------------------------------------------------- token splitting

  lemma {:induction false} WordLengthOf(t: string, rest: string)
    requires forall i :: 0 <= i < |t| ==> !IsSpace(t[i])
    requires rest == [] || IsSpace(rest[0])
    ensures WordLength(t + rest) == |t|
  {
    if t == [] {
      assert t + rest == rest;
    } else {
      assert (t + rest)[1..] == t[1..] + rest;
      WordLengthOf(t[1..], rest);
    }
  }

  lemma SplitFirst(t: string, rest: string)
    requires IsToken(t)
    requires rest == [] || IsSpace(rest[0])
    ensures Split(t + rest) == [t] + Split(rest)
  {
    WordLengthOf(t, rest);
    assert (t + rest)[..|t|] == t;
    assert (t + rest)[|t|..] == rest;
  }

  lemma SplitAfterSpace(t: string, rest: string)
    requires IsToken(t)
    requires rest == [] || IsSpace(rest[0])
    ensures Split(" " + (t + rest)) == [t] + Split(rest)
  {
    assert (" " + (t + rest))[1..] == t + rest;
    SplitFirst(t, rest);
  }

  lemma SplitDirected(a: string, b: string, c: string)
    requires IsToken(a) && IsToken(b) && IsToken(c)
    ensures Split(Directed(a, b, c)) == [a, b, c]
  {
    var cs := " " + (c + "");
    var bs := " " + (b + cs);
    assert Directed(a, b, c) == a + bs;
    SplitFirst(a, bs);
    SplitAfterSpace(b, cs);
    SplitAfterSpace(c, "");
  }

  // ------------------------------------------------------------- stripping

  lemma StripLeftFixed(s: string)
    requires s == [] || !IsSpace(s[0])
    ensures StripLeft(s) == s
  {}

  lemma {:induction false} StripLeftTrims(s: string)
    ensures StripLeft(s) == [] || !IsSpace(StripLeft(s)[0])
  {
    if s != [] && IsSpace(s[0]) { StripLeftTrims(s[1..]); }
  }

  lemma {:induction false} StripRightKeepsFirst(s: string)
    ensures StripRight(s) == [] || !IsSpace(StripRight(s)[|StripRight(s)| - 1])
    ensures StripRight(s) != [] ==> s != [] && StripRight(s)[0] == s[0]
  {
    if s != [] && IsSpace(s[|s| - 1]) { StripRightKeepsFirst(s[..|s| - 1]); }
  }

  lemma StripIdempotent(s: string)
    ensures Strip(Strip(s)) == Strip(s)
  {
    StripLeftTrims(s);
    StripRightKeepsFirst(StripLeft(s));
    StripLeftFixed(Strip(s));
  }

  lemma StripTrimmed(s: string)
    requires s != [] && !IsSpace(s[0]) && !IsSpace(s[|s| - 1])
    ensures Strip(s) == s
  {}

  lemma UpperFixed(s: string)
    requires IsUpper(s)
    ensures Upper(s) == s
  {
    assert Upper(s) == s;
  }

  /** Tokens of an upper-cased message are upper case. */
  lemma TokensAreUpper(s: string)
    ensures forall t :: t in Split(Upper(s)) ==> IsToken(t) && IsUpper(t)
  {
    forall t | t in Split(Upper(s)) ensures IsUpper(t) {
      forall i | 0 <= i < |t| ensures UpperChar(t[i]) == t[i] {
        assert t[i] in Upper(s);
      }
    }
  }

  // ---------------------------------------------------- parse after render

  /** A directed message made of proper tokens parses back to its three fields. */
  lemma ParseDirected(a: string, b: string, c: string)
    requires IsToken(a) && IsToken(b) && IsToken(c)
    requires IsUpper(a) && IsUpper(b) && IsUpper(c)
    requires a != "CQ"
    ensures Strip(Directed(a, b, c)) == Directed(a, b, c)
    ensures MessageTriplet(Directed(a, b, c)) == Fields(Triplet(a, b, c))
  {
    var m := Directed(a, b, c);
    assert m[0] == a[0] && m[|m| - 1] == c[|c| - 1];
    StripTrimmed(m);
    assert IsUpper(m) by {
      forall i | 0 <= i < |m| ensures UpperChar(m[i]) == m[i] {
        assert m[i] in a || m[i] in b || m[i] in c || m[i] == ' ';
      }
    }
    UpperFixed(m);
    SplitDirected(a, b, c);
  }

  /** Upper case: a small letter becomes its capital, anything else stays. */
  lemma UpperMeans(s: string, i: nat)
    requires i < |s|
    ensures var c, u := s[i], Upper(s)[i];
            !('a' <= u <= 'z') && (u != c ==> 'a' <= c <= 'z' && u as int == c as int - 32)
  {}

  /** Among texts of letters and digits the grids are a square, two letters and two
      digits, alone or with two more letters, but never RR73. */
  lemma GridTokens(t: string)
    requires IsUpper(t) && forall i :: 0 <= i < |t| ==> IsLetter(t[i]) || IsDigit(t[i])
    ensures IsGridToken(t)
       <==> && t != "RR73" && |t| >= 4 && 'A' <= t[0] <= 'R' && 'A' <= t[1] <= 'R' && IsDigit(t[2]) && IsDigit(t[3])
            && (|t| == 4 || (|t| >= 6 && IsLetter(t[4]) && IsLetter(t[5])))
  {
    UpperFixed(t);
    assert '+' !in t && '-' !in t;
    assert StripAngleRight(StripAngleLeft(t)) == t;
  }

  /** A call in the angle brackets of a hashed call is that call. */
  lemma BracketsFall(c: string)
    requires IsToken(c) && IsUpper(c)
    ensures CallKey("<" + c + ">") == c
  {
    var t := "<" + c + ">";
    StripTrimmed(t);
    UpperFixed(t);
    StripTrimmed(c);
    assert t[1..|t| - 1] == c;
  }

  lemma SplitWord(a: string, rest: string)
    requires IsToken(a)
    ensures Split(a + " " + rest) == [a] + Split(rest)
  {
    assert a + " " + rest == a + (" " + rest);
    SplitFirst(a, " " + rest);
    assert (" " + rest)[1..] == rest;
  }

  lemma WordsUpper(a: string, b: string)
    requires IsUpper(a) && IsUpper(b)
    ensures IsUpper(a + " " + b)
  {
    var t := a + " " + b;
    forall i | 0 <= i < |t| ensures UpperChar(t[i]) == t[i] {
      assert t[i] in a || t[i] in b || t[i] == ' ';
    }
  }

  lemma ModifierSkipped(m: string, de: string, grid: string)
    requires m in CQ_MODIFIERS
    ensures Parse(["CQ", m, de, grid]) == Fields(Triplet("CQ", de, grid))
  {}

  lemma TrimmedUpper(text: string)
    requires text != [] && !IsSpace(text[0]) && !IsSpace(text[|text| - 1]) && IsUpper(text)
    ensures Upper(Strip(text)) == text
  {
    StripTrimmed(text);
    UpperFixed(text);
  }

  lemma CqTextFixed(rest: string)
    requires rest != [] && !IsSpace(rest[|rest| - 1]) && IsUpper(rest)
    ensures Upper(Strip("CQ" + " " + rest)) == "CQ" + " " + rest
  {
    var text := "CQ" + " " + rest;
    WordsUpper("CQ", rest);
    assert text[0] == 'C' && text[|text| - 1] == rest[|rest| - 1];
    TrimmedUpper(text);
  }

  lemma CqWords(m: string, de: string, grid: string)
    requires IsToken(m) && IsUpper(m) && IsToken(de) && IsUpper(de) && IsToken(grid) && IsUpper(grid)
    ensures MessageTriplet("CQ" + " " + Directed(m, de, grid)) == Parse(["CQ"] + [m, de, grid])
  {
    var rest := Directed(m, de, grid);
    WordsUpper(m, de);
    WordsUpper(m + " " + de, grid);
    assert rest[|rest| - 1] == grid[|grid| - 1];
    CqTextFixed(rest);
    SplitDirected(m, de, grid);
    SplitWord("CQ", rest);
  }

  /** A modifier after CQ is passed over. */
  lemma ModifierPassedOver(m: string, de: string, grid: string)
    requires IsToken(m) && IsUpper(m) && IsToken(de) && IsUpper(de) && IsToken(grid) && IsUpper(grid)
    ensures m in CQ_MODIFIERS ==>
              MessageTriplet("CQ" + " " + Directed(m, de, grid)) == Fields(Triplet("CQ", de, grid))
  {
    CqWords(m, de, grid);
    assert ["CQ"] + [m, de, grid] == ["CQ", m, de, grid];
    if m in CQ_MODIFIERS { ModifierSkipped(m, de, grid); }
  }

  lemma TripletTokens(message: string)
    requires MessageTriplet(message).Fields? && !MessageTriplet(message).value.IsCq()
    ensures var t := MessageTriplet(message).value;
            && IsToken(t.callA) && IsToken(t.callB) && IsToken(t.third)
            && IsUpper(t.callA) && IsUpper(t.callB) && IsUpper(t.third)
  {
    TokensAreUpper(Strip(message));
    var parts := Split(Upper(Strip(message)));
    assert parts[0] in parts && parts[1] in parts && parts[2] in parts;
  }

  lemma CqIsNoRemote()
    ensures !ValidRemoteCall("CQ")
  {
    assert Upper(Strip("CQ")) == "CQ";
  }

  /** The rewriter either leaves the three fields alone or swaps the two calls
      of a message that named us first, keeping the third field. */
  lemma NormalizeMeaning(message: string, me: string, myGrid4: string)
    requires NormalizeCallOrder(message, me, myGrid4).Some?
    ensures var out := NormalizeCallOrder(message, me, myGrid4).value;
            if out == Strip(message) then MessageTriplet(out) == MessageTriplet(message)
            else
              && MessageTriplet(message).Fields?
              && var t := MessageTriplet(message).value;
              && t.callA == Upper(Strip(me)) && ValidRemoteCall(t.callB)
              && MessageTriplet(out) == Fields(Triplet(t.callB, t.callA, t.third))
  {
    StripIdempotent(message);
    if NormalizeCallOrder(message, me, myGrid4).value != Strip(message) {
      TripletTokens(message);
      var t := MessageTriplet(message).value;
      CqIsNoRemote();
      ParseDirected(t.callB, t.callA, t.third);
    }
  }

  /** Rewriting is idempotent on every message it returns for, for every station. */
  lemma NormalizeIdempotent(message: string, me: string, myGrid4: string)
    requires NormalizeCallOrder(message, me, myGrid4).Some?
    ensures var out := NormalizeCallOrder(message, me, myGrid4).value;
            NormalizeCallOrder(out, me, myGrid4) == Some(out)
  {
    var out := NormalizeCallOrder(message, me, myGrid4).value;
    StripIdempotent(message);
    if out == Strip(message) {
      assert MessageTriplet(out) == MessageTriplet(message);
    } else {
      TripletTokens(message);
      var t := MessageTriplet(message).value;
      CqIsNoRemote();
      ParseDirected(t.callB, t.callA, t.third);
    }
  }

  // ------------------------------------------------------- where the parser raises

  lemma {:induction false} EndsInWord(s: string)
    requires s != [] && !IsSpace(s[|s| - 1])
    ensures Split(s) != []
  {
    if IsSpace(s[0]) { EndsInWord(s[1..]); }
  }

  lemma UpperKeepsSpaces(s: string)
    ensures forall i :: 0 <= i < |s| ==> (IsSpace(Upper(s)[i]) <==> IsSpace(s[i]))
  {}

  lemma SplitHead(s: string)
    requires s != [] && !IsSpace(s[0])
    ensures var n := WordLength(s); Split(s) == [s[..n]] + Split(s[n..])
  {}

  lemma MoreWords(s: string)
    requires s != [] && !IsSpace(s[0]) && !IsSpace(s[|s| - 1]) && WordLength(s) < |s|
    ensures |Split(s)| > 1
  {
    var n := WordLength(s);
    SplitHead(s);
    assert s[n..][|s| - n - 1] == s[|s| - 1];
    EndsInWord(s[n..]);
  }

  /** A text without outer blanks that splits into one word is that word. */
  lemma OneWord(s: string)
    requires s != [] && !IsSpace(s[0]) && !IsSpace(s[|s| - 1]) && |Split(s)| == 1
    ensures Split(s) == [s]
  {
    if WordLength(s) < |s| { MoreWords(s); }
    SplitFirst(s, "");
    assert s + "" == s;
  }

  lemma StripEnds(s: string)
    ensures Strip(s) == [] || (!IsSpace(Strip(s)[0]) && !IsSpace(Strip(s)[|Strip(s)| - 1]))
  {
    StripLeftTrims(s);
    StripRightKeepsFirst(StripLeft(s));
  }

  /** The parser raises exactly on the single word CQ, in any case, with any blanks around it. */
  lemma ParserRaisesExactly(message: string)
    ensures MessageTriplet(message).Raises? <==> Upper(Strip(message)) == "CQ"
  {
    var u := Upper(Strip(message));
    StripEnds(message);
    UpperKeepsSpaces(Strip(message));
    if MessageTriplet(message).Raises? {
      assert |Split(u)| == 1;
      OneWord(u);
    }
    if u == "CQ" {
      SplitFirst("CQ", "");
      assert "CQ" + "" == "CQ";
    }
  }

  /** The rewriter raises exactly there, if a call sign is set. */
  lemma RewriterRaisesExactly(message: string, me: string, myGrid4: string)
    ensures NormalizeCallOrder(message, me, myGrid4).None? <==> Strip(me) != "" && Upper(Strip(message)) == "CQ"
  {
    ParserRaisesExactly(message);
  }

  lemma {:induction false} StripRightReaches(s: string, i: nat)
    requires i < |s| && !IsSpace(s[i])
    ensures |StripRight(s)| > i
  {
    if IsSpace(s[|s| - 1]) { StripRightReaches(s[..|s| - 1], i); }
  }

  lemma {:induction false} StripKeepsWord(s: string, i: nat, n: nat)
    requires n > 0 && i + n <= |s| && !IsSpace(s[i]) && !IsSpace(s[i + n - 1])
    ensures |Strip(s)| >= n
  {
    if IsSpace(s[0]) {
      StripKeepsWord(s[1..], i - 1, n);
      assert Strip(s) == Strip(s[1..]);
    } else {
      StripRightReaches(s, i + n - 1);
    }
  }

  /** Nothing with a word of three characters in it makes the parser raise. */
  lemma LongWordParses(before: string, word: string, after: string)
    requires |word| >= 3 && !IsSpace(word[0]) && !IsSpace(word[|word| - 1])
    ensures !MessageTriplet(before + word + after).Raises?
  {
    var s := before + word + after;
    assert s[|before|] == word[0] && s[|before| + |word| - 1] == word[|word| - 1];
    StripKeepsWord(s, |before|, |word|);
    ParserRaisesExactly(s);
  }

  lemma DirectedParses(to: string, de: string, third: string)
    requires |de| >= 3 && !IsSpace(de[0]) && !IsSpace(de[|de| - 1])
    ensures !MessageTriplet(Directed(to, de, third)).Raises?
  {
    assert Directed(to, de, third) == (to + " ") + de + (" " + third);
    LongWordParses(to + " ", de, " " + third);
  }

  // ---------------------------------------------------------- classifiers

  /** The classes the operator switches on do not overlap, except that an
      R-report is a report. */
  lemma ClassesDisjoint(t: string)
    ensures IsRReport(t) ==> IsReport(t)
    ensures IsGridToken(t) ==> !IsReport(t) && !IsRrr(t) && !IsRr73(t) && !Is73(t)
    ensures IsReport(t) ==> !IsRrr(t) && !IsRr73(t) && !Is73(t)
    ensures !(IsRrr(t) && IsRr73(t)) && !(IsRrr(t) && Is73(t)) && !(IsRr73(t) && Is73(t))
  {}

  lemma SnrTextUpper(snr: int)
    ensures Upper(SnrText(snr)) == SnrText(snr)
    ensures Upper("R" + SnrText(snr)) == "R" + SnrText(snr)
  {
    var t := SnrText(snr);
    assert forall i :: 0 <= i < |t| ==> UpperChar(t[i]) == t[i];
    assert IsUpper(t);
    UpperFixed(t);
    assert IsUpper("R" + t);
    UpperFixed("R" + t);
  }

  /** What we send is classified by the partner as we mean it. */
  lemma SentReportClass(snr: int)
    ensures IsReport(SnrText(snr)) && !IsRReport(SnrText(snr))
    ensures IsRReport("R" + SnrText(snr))
    ensures !IsGridToken(SnrText(snr)) && !IsGridToken("R" + SnrText(snr))
  {
    var t := SnrText(snr);
    SnrTextUpper(snr);
    assert t[0] in t;
    assert ("R" + t)[1] == t[0] && t[0] in "R" + t;
  }

  lemma {:induction false} NumberOfDigits(n: nat)
    ensures NumberOf(Digits(n)) == n
  {
    if n < 10 {
      assert Digits(n)[..0] == "";
      assert DigitValue(DigitChar(n)) == n;
      assert NumberOf("") == 0;
    } else {
      var d := Digits(n);
      assert d[..|d| - 1] == Digits(n / 10);
      NumberOfDigits(n / 10);
    }
  }

  lemma NumberOfPadded(n: nat)
    requires n < 10
    ensures NumberOf("0" + Digits(n)) == n
  {
    var d := "0" + Digits(n);
    assert d[..1] == "0" && "0"[..0] == "";
    assert NumberOf("") == 0 && NumberOf("0") == 0;
    assert d[1] == DigitChar(n) && DigitValue(d[1]) == n;
  }

  lemma SnrBody(snr: int)
    ensures var t := SnrText(snr);
            NumberOf(t[1..]) == (if snr < 0 then -snr else snr)
  {
    var n := if snr < 0 then -snr else snr;
    NumberOfDigits(n);
    if n < 10 {
      NumberOfPadded(n);
      assert SnrText(snr)[1..] == "0" + Digits(n);
    } else {
      assert SnrText(snr)[1..] == Digits(n);
    }
  }

  /** A report we send is read back by the partner as the same text exactly
      when it has at most two digits; a longer one is cut to three characters. */
  lemma ReportRoundTrip(snr: int)
    ensures RstFromReport(SnrText(snr)) == SnrText(snr) <==> -99 <= snr <= 99
    ensures RstFromReport("R" + SnrText(snr)) == SnrText(snr) <==> -99 <= snr <= 99
  {
    var t := SnrText(snr);
    SnrTextUpper(snr);
    SnrBody(snr);
    assert StripR(t) == t;
    assert ("R" + t)[1..] == t;
    assert StripR("R" + t) == t;
    if -99 <= snr <= 99 {
      assert |t| == 3;
      assert SignedShortNumber(t);
    } else {
      assert |t| > 3;
      assert |RstFromReport(t)| == 3;
    }
  }

  /** The text stored for a received plain report is never empty. */
  lemma RstNonEmpty(third: string)
    requires IsReport(third) && !IsRReport(third)
    ensures RstFromReport(third) != ""
  {
    var t := Upper(third);
    assert StripR(t) == t;
  }
}
