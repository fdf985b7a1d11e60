/** The summary strings of src/index.ts and the decimal rendering of an
    integer that a template literal such as `${n}` performs. Only integral
    numbers are modelled; JavaScript's rendering of fractions, exponents and
    NaN is not. */
module Text {

  predicate IsDigit(c: char) {
    '0' <= c <= '9'
  }

  predicate AllDigits(s: string) {
    forall i :: 0 <= i < |s| ==> IsDigit(s[i])
  }

  function DigitChar(d: nat): (c: char)
    requires d < 10
    ensures IsDigit(c)
  {
    ('0' as int + d) as char
  }

  function DigitValue(c: char): (d: nat)
    requires IsDigit(c)
    ensures d < 10 && DigitChar(d) == c
  {
    c as int - '0' as int
  }

  /** Decimal digits of a natural number, most significant first, without
      leading zeros. */
  function NatString(n: nat): (s: string)
    ensures 1 <= |s| && AllDigits(s)
    ensures |s| > 1 ==> s[0] != '0'
  {
    if n < 10 then [DigitChar(n)] else NatString(n / 10) + [DigitChar(n % 10)]
  }

  /** `${n}` for an integral number: a minus sign before the magnitude when
      negative. */
  function DecimalString(n: int): (s: string)
    ensures |s| >= 1
    ensures n < 0 <==> s[0] == '-'
    ensures forall i :: 0 <= i < |s| ==> s[i] != ' '
  {
    if n < 0 then "-" + NatString(-n) else NatString(n)
  }

  /** The value of a string of decimal digits. */
  function ParseNat(s: string): nat
    requires AllDigits(s)
  {
    if s == [] then 0 else ParseNat(s[..|s| - 1]) * 10 + DigitValue(s[|s| - 1])
  }

  /** Reads back what DecimalString writes. */
  function ParseDecimal(s: string): int
    requires |s| >= 1
    requires if s[0] == '-' then AllDigits(s[1..]) else AllDigits(s)
  {
    if s[0] == '-' then -(ParseNat(s[1..]) as int) else ParseNat(s)
  }

  lemma {:induction false} NatStringRoundTrip(n: nat)
    ensures ParseNat(NatString(n)) == n
  {
    if n >= 10 {
      NatStringRoundTrip(n / 10);
      var s := NatString(n);
      assert s[..|s| - 1] == NatString(n / 10);
    }
  }

  /** Rendering an integer loses nothing: it can be read back. */
  lemma DecimalRoundTrip(n: int)
    ensures var s := DecimalString(n);
      (if s[0] == '-' then AllDigits(s[1..]) else AllDigits(s)) && ParseDecimal(s) == n
  {
    if n < 0 {
      NatStringRoundTrip(-n);
      assert DecimalString(n)[1..] == NatString(-n);
    } else {
      NatStringRoundTrip(n);
    }
  }

  /** Distinct integers render differently. */
  lemma DecimalInjective(a: int, b: int)
    requires DecimalString(a) == DecimalString(b)
    ensures a == b
  {
    DecimalRoundTrip(a);
    DecimalRoundTrip(b);
  }

  /** src/index.ts:112 */
  const QueueIsEmpty: string := "The queue is empty"

  /** src/index.ts:148, the message of the assertion on the handler. */
  const MissingHandler: string := "Please set your processSingleMessage function to the instance."

  /** The position of the first space of `s`, or `|s|` when there is none. */
  function FirstSpace(s: string): (k: nat)
    ensures k <= |s|
  {
    if s == [] || s[0] == ' ' then 0 else 1 + FirstSpace(s[1..])
  }

  /** A space-free word followed by a space: the first space ends the word. */
  lemma {:induction false} FirstSpaceAfterWord(w: string, t: string)
    requires forall i :: 0 <= i < |w| ==> w[i] != ' '
    requires |t| >= 1 && t[0] == ' '
    ensures FirstSpace(w + t) == |w|
  {
    if w != [] {
      assert (w + t)[1..] == w[1..] + t;
      FirstSpaceAfterWord(w[1..], t);
    }
  }

  /** `s` is a decimal numeral that reads back as `n`. */
  predicate ReadsAs(s: string, n: int) {
    |s| >= 1 && (if s[0] == '-' then AllDigits(s[1..]) else AllDigits(s)) && ParseDecimal(s) == n
  }

  /** `Processed batch of ${count} messages` (src/index.ts:132): the fixed
      words around the count, written in decimal. */
  function BatchMessage(count: nat): (s: string)
    ensures |s| >= 29
    ensures s[..19] == "Processed batch of " && s[|s| - 9..] == " messages"
    ensures ReadsAs(s[19..|s| - 9], count)
  {
    var d := DecimalString(count);
    DecimalRoundTrip(count);
    var s := "Processed batch of " + (d + " messages");
    assert s[19..|s| - 9] == d;
    s
  }

  /** `Processed the SQS in ${numParallelJobs} groups of
      ${maxNumberOfMessages} messages` (src/index.ts:81): the first number
      runs up to the first space after the fixed opening words, the second
      from after " groups of " up to the closing " messages", and both are
      written in decimal. */
  function RunMessage(numParallelJobs: int, maxNumberOfMessages: int): (s: string)
    ensures RunFields(s, numParallelJobs, maxNumberOfMessages)
  {
    var d1, d2 := DecimalString(numParallelJobs), DecimalString(maxNumberOfMessages);
    DecimalRoundTrip(numParallelJobs);
    DecimalRoundTrip(maxNumberOfMessages);
    RunTemplateFields(d1, d2, numParallelJobs, maxNumberOfMessages);
    "Processed the SQS in " + (d1 + (" groups of " + (d2 + " messages")))
  }

  /** `s` opens with "Processed the SQS in ", then shows `jobs` up to the
      first space, then " groups of ", then `max`, and closes with
      " messages". */
  predicate RunFields(s: string, jobs: int, max: int) {
    && |s| >= 43
    && s[..21] == "Processed the SQS in " && s[|s| - 9..] == " messages"
    && var k := 21 + FirstSpace(s[21..]);
       && k + 11 <= |s| - 9
       && ReadsAs(s[21..k], jobs)
       && s[k..k + 11] == " groups of "
       && ReadsAs(s[k + 11..|s| - 9], max)
  }

  /** Where the two numerals sit in the run summary. */
  lemma RunTemplateFields(d1: string, d2: string, jobs: int, max: int)
    requires forall i :: 0 <= i < |d1| ==> d1[i] != ' '
    requires ReadsAs(d1, jobs) && ReadsAs(d2, max)
    ensures RunFields("Processed the SQS in " + (d1 + (" groups of " + (d2 + " messages"))), jobs, max)
  {
    var tail := " groups of " + (d2 + " messages");
    var s := "Processed the SQS in " + (d1 + tail);
    FirstSpaceAfterWord(d1, tail);
    assert s[21..] == d1 + tail;
    assert s[21..21 + |d1|] == d1;
    assert s[21 + |d1|..21 + |d1| + 11] == " groups of ";
    assert s[21 + |d1| + 11..|s| - 9] == d2;
  }

  /** Two space-free words each followed by a space-led tail split alike. */
  lemma SpaceFreePrefix(w1: string, t1: string, w2: string, t2: string)
    requires forall i :: 0 <= i < |w1| ==> w1[i] != ' '
    requires forall i :: 0 <= i < |w2| ==> w2[i] != ' '
    requires |t1| >= 1 && t1[0] == ' ' && |t2| >= 1 && t2[0] == ' '
    requires w1 + t1 == w2 + t2
    ensures w1 == w2 && t1 == t2
  {
    FirstSpaceAfterWord(w1, t1);
    FirstSpaceAfterWord(w2, t2);
    assert w1 == (w1 + t1)[..|w1|];
    assert w2 == (w2 + t2)[..|w2|];
    assert t1 == (w1 + t1)[|w1|..];
    assert t2 == (w2 + t2)[|w2|..];
  }

  /** A common prefix can be cancelled. */
  lemma CancelPrefix(head: string, a: string, b: string)
    requires head + a == head + b
    ensures a == b
  {
    assert a == (head + a)[|head|..];
    assert b == (head + b)[|head|..];
  }

  /** The run summary determines both numbers it reports. */
  lemma RunMessageInjective(jobs1: int, max1: int, jobs2: int, max2: int)
    requires RunMessage(jobs1, max1) == RunMessage(jobs2, max2)
    ensures jobs1 == jobs2 && max1 == max2
  {
    var d1, d2 := DecimalString(jobs1), DecimalString(jobs2);
    var m1, m2 := DecimalString(max1), DecimalString(max2);
    var t1, t2 := " groups of " + (m1 + " messages"), " groups of " + (m2 + " messages");
    CancelPrefix("Processed the SQS in ", d1 + t1, d2 + t2);
    SpaceFreePrefix(d1, t1, d2, t2);
    DecimalInjective(jobs1, jobs2);
    CancelPrefix(" groups of ", m1 + " messages", m2 + " messages");
    SpaceFreePrefix(m1, " messages", m2, " messages");
    DecimalInjective(max1, max2);
  }

  /** The batch summary determines the number of messages it reports. */
  lemma BatchMessageInjective(n1: nat, n2: nat)
    requires BatchMessage(n1) == BatchMessage(n2)
    ensures n1 == n2
  {
    var d1, d2 := DecimalString(n1), DecimalString(n2);
    CancelPrefix("Processed batch of ", d1 + " messages", d2 + " messages");
    SpaceFreePrefix(d1, " messages", d2, " messages");
    DecimalInjective(n1, n2);
  }

  /** The scenario of the source's tests: ten jobs of five messages. */
  lemma RunMessageExample()
    ensures RunMessage(10, 5) == "Processed the SQS in 10 groups of 5 messages"
  {
    var ten, five := DecimalString(10), DecimalString(5);
    assert ten == "10";
    assert five == "5";
    RunMessageSpelled(10, 5);
    TenGroupsOfFive();
  }

  lemma TenGroupsOfFive()
    ensures "Processed the SQS in " + ("10" + (" groups of " + ("5" + " messages")))
         == "Processed the SQS in 10 groups of 5 messages"
  {
  }

  /** The run summary spelled out from its two numerals. */
  lemma RunMessageSpelled(numParallelJobs: int, maxNumberOfMessages: int)
    ensures RunMessage(numParallelJobs, maxNumberOfMessages)
         == "Processed the SQS in " + (DecimalString(numParallelJobs)
            + (" groups of " + (DecimalString(maxNumberOfMessages) + " messages")))
  {
  }

  /** A batch summary never reads as the empty-queue message. */
  lemma BatchMessageIsNotEmptyQueue(n: nat)
    ensures BatchMessage(n) != QueueIsEmpty
  {
    assert BatchMessage(n)[0] == 'P';
  }
}
