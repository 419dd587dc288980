/** Which typed values come back from the words that they are written as (core/src/endbot_core/operations.py). */
module OperationValues {
  import opened Common
  import opened Operations

  // -- numbers -------------------------------------------------------------------------------

  lemma {:induction false} DigitsBack(n: nat)
    ensures NumberOf(DigitsOf(n)) == n
    ensures DigitsOf(n)[0] != '-'
    decreases n
  {
    var s := DigitsOf(n);
    if n < 10 {
      assert s[..|s| - 1] == "" && NumberOf("") == 0;
    } else {
      DigitsBack(n / 10);
      assert s[..|s| - 1] == DigitsOf(n / 10);
    }
  }

  lemma NumberBack(n: int)
    ensures IntOf(IntText(n)) == n
  {
    if n < 0 {
      DigitsBack(-n);
      assert IntText(n)[1..] == DigitsOf(-n);
    } else {
      DigitsBack(n);
    }
  }

  // -- values that read back ----------------------------------------------------------------

  /** The token of a value is read as a value with the same token. */
  predicate ReadsBack(v: Value, spec: Spec)
    requires Scalar(v, spec).Some?
  {
    var read := ReadValue(Scalar(v, spec).value, spec);
    read.Some? && Scalar(read.value, spec) == Scalar(v, spec)
  }

  lemma DigitsAreNotQuoting(n: int)
    ensures SingleToken(IntText(n)) && IntText(n)[0] != '~' && IntText(n) != "default"
  {
    DigitsBack(if n < 0 then -n else n);
    var s := IntText(n);
    assert s[0] == '-' || IsDigit(s[0]);
    forall i | 0 <= i < |s| ensures !IsSpace(s[i]) && !IsQuoting(s[i]) {
      if n < 0 && i > 0 { assert s[i] == DigitsOf(-n)[i - 1]; }
    }
  }

  lemma PlayerBack(v: Value, spec: Spec)
    requires spec.kind == KindPlayer && Scalar(v, spec).Some?
    ensures ReadsBack(v, spec)
  {
    var text := v.text;
    if ' ' in text {
      var quoted := "'" + text + "'";
      assert quoted[1..|quoted| - 1] == text;
      assert '\'' !in text;
      assert quoted[0] == '\'' && !SingleToken(quoted);
    }
  }

  // -- numbers that are not whole --------------------------------------------------------------

  lemma SplitAt(a: string, b: string, c: string)
    ensures (a + b + c)[..|a|] == a && (a + b + c)[|a| + |b|..] == c
  {
  }

  lemma PointAfter(head: string, tail: string)
    requires forall i :: 0 <= i < |head| ==> head[i] != '.'
    ensures PointAt(head + "." + tail) == |head|
  {
    var s := head + "." + tail;
    assert s[|head|] == '.';
    assert forall i :: 0 <= i < |head| ==> s[i] == head[i];
  }

  lemma TrimmedFraction(s: string)
    requires IsFraction(s)
    ensures Trimmed(s) == s
  {
  }

  /** The sign and the whole part of a number are the text of a whole number. */
  lemma HeadIsInt(negative: bool, whole: nat)
    ensures var head := Sign(negative) + DigitsOf(whole);
      && IsIntText(head) && (forall i :: 0 <= i < |head| ==> head[i] != '.') && (head[0] == '-' <==> negative)
      && NumberOf(if negative then head[1..] else head) == whole && head[0] != '~'
  {
    var head := Sign(negative) + DigitsOf(whole);
    DigitsBack(whole);
    if negative {
      assert head[1..] == DigitsOf(whole);
      forall i | 0 <= i < |head| ensures head[i] != '.' { if i > 0 { assert head[i] == DigitsOf(whole)[i - 1]; } }
    } else {
      assert head == DigitsOf(whole);
    }
    assert head[0] == '-' || IsDigit(head[0]);
  }

  lemma PointIsNoInt(s: string, k: nat)
    requires k < |s| && !IsDigit(s[k]) && s[k] != '-'
    ensures !IsIntText(s)
  {
    if s[0] == '-' { assert s[1..][k - 1] == s[k]; }
  }

  /** A plain number is read back as itself. */
  lemma PlainBack(v: Value)
    requires IsProper(v) && IsPlain(v)
    ensures ReadNumber(DecimalText(v)) == Some(v) && DecimalText(v)[0] != '~'
  {
    var head, s := Sign(v.negative) + DigitsOf(v.whole), DecimalText(v);
    HeadIsInt(v.negative, v.whole);
    PointAfter(head, v.fraction);
    SplitAt(head, ".", v.fraction);
    TrimmedFraction(v.fraction);
    PointIsNoInt(s, |head|);
    assert s[0] == head[0];
    if v.negative { assert s[1..|head|] == head[1..]; }
  }

  /** A text with an exponent is no number to the reader. */
  lemma ExponentIsNoNumber(s: string, i: nat)
    requires i < |s| && s[i] == 'e'
    ensures ReadNumber(s) == None
  {
    PointIsNoInt(s, i);
    var k := PointAt(s);
    if k + 1 < |s| {
      if i < k { PointIsNoInt(s[..k], i); } else if i > k { assert s[k + 1..][i - k - 1] == 'e'; }
    }
  }

  lemma TinyText(v: Value)
    requires IsProper(v) && !IsPlain(v)
    ensures ReadNumber(DecimalText(v)) == None && DecimalText(v) != "" && DecimalText(v)[0] != '~'
    ensures 'e' in DecimalText(v)
  {
    var digits := Significant(v.fraction);
    SignificantDigits(v.fraction);
    var head := Sign(v.negative) + digits[..Least(|digits|, 1)] + (if |digits| > 1 then "." + digits[1..] else "");
    var power := |v.fraction| - |digits| + 1;
    var tail := (if power < 10 then "0" else "") + DigitsOf(power);
    var s := DecimalText(v);
    assert s == head + "e-" + tail;
    assert s[|head|] == 'e';
    ExponentIsNoNumber(s, |head|);
    assert head != "" && s[0] == head[0];
    assert head[0] == '-' || head[0] == digits[0];
  }

  lemma {:induction false} SignificantDigits(s: string)
    requires IsFraction(s)
    ensures Significant(s) != "" && AllDigits(Significant(s))
  {
    if s[0] == '0' {
      assert s[1..] != "" && s[1..][|s| - 2] == s[|s| - 1];
      SignificantDigits(s[1..]);
    }
  }

  lemma DecimalBack(v: Value, spec: Spec)
    requires v.Decimal? && Scalar(v, spec).Some?
    ensures ReadsBack(v, spec) <==> IsPlain(v)
  {
    assert IsProper(v) && Scalar(v, spec) == Some(DecimalText(v));
    if IsPlain(v) { PlainBack(v); } else { TinyText(v); }
  }

  lemma IntBack(v: Value, spec: Spec)
    requires v.Int? && Scalar(v, spec).Some?
    ensures ReadsBack(v, spec)
  {
    NumberBack(v.number);
    DigitsAreNotQuoting(v.number);
  }

  /**
   * Every written value reads back, but for two kinds: a number that is not whole and below 0.0001 in size, which
   * prints with an exponent; and a text that looks like a number where both are allowed, which is read as that number
   * and comes back only where the number is allowed and prints the same.
   */
  lemma ReadsBackExactly(v: Value, spec: Spec)
    requires Scalar(v, spec).Some?
    ensures ReadsBack(v, spec) <==>
      && (v.Decimal? ==> IsPlain(v))
      && (spec.kind == KindStringOrInteger && v.Str? && IsIntText(v.text)
          ==> IntText(IntOf(v.text)) == v.text && Allowed(Int(IntOf(v.text)), spec))
  {
    if v.Int? {
      IntBack(v, spec);
    } else if v.Decimal? {
      DecimalBack(v, spec);
    } else if spec.kind == KindPlayer {
      PlayerBack(v, spec);
    } else if v.Str? {
      TextBack(v, spec);
    }
  }

  lemma TextBack(v: Value, spec: Spec)
    requires v.Str? && spec.kind != KindPlayer && Scalar(v, spec).Some?
    ensures ReadsBack(v, spec) <==>
      (spec.kind == KindStringOrInteger && IsIntText(v.text)
       ==> IntText(IntOf(v.text)) == v.text && Allowed(Int(IntOf(v.text)), spec))
  {
  }

  /** A text of digits with a leading zero is read as a number, which prints without it. */
  lemma LeadingZeroDoesNotReadBack()
    ensures var spec := Spec(KindStringOrInteger, None, None);
      Scalar(Str("007"), spec) == Some("007") && !ReadsBack(Str("007"), spec)
  {
    var spec := Spec(KindStringOrInteger, None, None);
    assert SingleToken("007") && IsIntText("007");
    assert "007"[..2] == "00" && "00"[..1] == "0" && "0"[..0] == "";
    assert NumberOf("0") == 0 && NumberOf("00") == 0 && NumberOf("007") == 7;
    assert IntText(7) == "7" != "007";
    ReadsBackExactly(Str("007"), spec);
  }
}
