/**
  The `m:ss` label in the middle of front/src/components/CircularTimer.js:
  whole minutes without an hour rollover, a colon, and the remaining seconds
  padded to two digits.
 */
module CircularTimer {
  import opened Wrappers
  import opened JsText

  /** The two-digit seconds field: the tens digit, then the units digit. */
  function SecondsField(n: nat): (r: string)
    requires n < 60
    ensures |r| == 2 && AllDigits(r) && r[0] <= '5'
  {
    [DigitChar(n / 10), DigitChar(n % 10)]
  }

  /** The field is what `String(n).padStart(2, "0")` gives. */
  lemma SecondsFieldIsPadded(n: nat)
    requires n < 60
    ensures SecondsField(n) == PadStart(NatToString(n), 2, '0')
  {
    var digits := NatToString(n);
    if n >= 10 {
      assert digits == NatToString(n / 10) + [DigitChar(n % 10)];
      assert NatToString(n / 10) == [DigitChar(n / 10)];
    } else {
      assert n / 10 == 0 && n % 10 == n;
      assert digits == [DigitChar(n)];
    }
  }

  /** The field reads back as the seconds value. */
  lemma SecondsFieldReads(n: nat)
    requires n < 60
    ensures ParseDecimal(SecondsField(n)) == n
  {
    var r := SecondsField(n);
    assert DigitValue(r[0]) == n / 10 && DigitValue(r[1]) == n % 10;
    assert r[..1][..0] == [];
    assert ParseDecimal(r[..1]) == n / 10;
    assert n / 10 * 10 + n % 10 == n;
  }

  /** The label for `t` seconds left: `Math.floor(t / 60)`, ":", then the padded `t % 60`. */
  function Label(t: nat): (r: string)
    ensures |r| >= 4 && r[|r| - 3] == ':'
  {
    NatToString(t / 60) + ":" + SecondsField(t % 60)
  }

  /** The pieces of a label: the minutes before the colon, the seconds field after it. */
  lemma LabelParts(t: nat)
    ensures var l := Label(t);
      l[..|l| - 3] == NatToString(t / 60) && l[|l| - 2..] == SecondsField(t % 60)
  {
    var minutes := NatToString(t / 60);
    var l := Label(t);
    assert |l| - 3 == |minutes|;
    assert l[..|minutes|] == minutes;
  }

  /** Reads an `m:ss` label back into seconds; anything else is `None`. */
  function ReadLabel(l: string): (r: Option<nat>)
    ensures r.Some? ==> |l| >= 4 && l[|l| - 3] == ':'
  {
    if |l| >= 4 && l[|l| - 3] == ':' && AllDigits(l[..|l| - 3]) && AllDigits(l[|l| - 2..]) then
      Some(ParseDecimal(l[..|l| - 3]) * 60 + ParseDecimal(l[|l| - 2..]))
    else None
  }

  /** Reading the label back gives the seconds it was drawn from: minutes * 60 + seconds == t. */
  lemma {:induction false} LabelRoundTrip(t: nat)
    ensures ReadLabel(Label(t)) == Some(t)
  {
    var m, sec := t / 60, t % 60;
    assert m * 60 + sec == t;
    LabelParts(t);
    ParseNatToString(m);
    SecondsFieldReads(sec);
  }

  /** Two different times never share a label. */
  lemma LabelInjective(a: nat, b: nat)
    requires Label(a) == Label(b)
    ensures a == b
  {
    LabelRoundTrip(a);
    LabelRoundTrip(b);
  }

  /** The seconds field is two digits from "00" to "59". */
  lemma SecondsFieldInRange(t: nat)
    ensures var l := Label(t);
      && IsDigit(l[|l| - 2]) && IsDigit(l[|l| - 1])
      && '0' <= l[|l| - 2] <= '5'
  {
    LabelParts(t);
    var l := Label(t);
    assert l[|l| - 2] == SecondsField(t % 60)[0] && l[|l| - 1] == SecondsField(t % 60)[1];
  }

  /** The seconds field starts with a '0' exactly for values under ten. */
  lemma PaddedBelowTen(sec: nat)
    requires sec < 60
    ensures sec < 10 <==> SecondsField(sec)[0] == '0'
  {
    assert SecondsField(sec)[0] == DigitChar(sec / 10);
  }

  /** Under ten minutes the label is four characters, and a seconds value under ten is padded with a '0'. */
  lemma ShortLabels(t: nat)
    requires t < 600
    ensures |Label(t)| == 4
    ensures t % 60 < 10 <==> Label(t)[2] == '0'
  {
    assert t / 60 < 10;
    LabelParts(t);
    PaddedBelowTen(t % 60);
    var l := Label(t);
    assert l[2] == l[|l| - 2..][0];
  }

  /** There is no hour field: from an hour on, the minutes keep counting past 59. */
  lemma NoHourRollover(t: nat)
    requires t >= 3600
    ensures var l := Label(t);
      |l| >= 5 && AllDigits(l[..|l| - 3]) && ParseDecimal(l[..|l| - 3]) == t / 60
  {
    LabelParts(t);
    ParseNatToString(t / 60);
  }

  /** Concrete labels: no time, a minute and five seconds, and a full hour. */
  lemma LabelExamples()
    ensures Label(0) == "0:00"
    ensures Label(65) == "1:05"
    ensures Label(3600) == "60:00"
  {
    assert NatToString(60) == NatToString(6) + [DigitChar(0)];
  }
}
