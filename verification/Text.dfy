/** Splitting and joining, and decimal numbers, as the Rust standard library does them.
    A `string` stands for its bytes, one character each. */
module Text {
  import opened Common

  /** `str::split` on one character. */
  function Split(s: string, sep: char): (parts: seq<string>)
    ensures |parts| >= 1
  {
    if s == "" then [""]
    else
      var parts := Split(s[..|s| - 1], sep);
      var last := |parts| - 1;
      if s[|s| - 1] == sep then parts + [""] else parts[..last] + [parts[last] + [s[|s| - 1]]]
  }

  function Join(parts: seq<string>, sep: char): string {
    if parts == [] then ""
    else if |parts| == 1 then parts[0]
    else Join(parts[..|parts| - 1], sep) + [sep] + parts[|parts| - 1]
  }

  predicate Free(s: string, sep: char) { sep !in s }

  predicate AllFree(parts: seq<string>, sep: char) { forall k :: 0 <= k < |parts| ==> Free(parts[k], sep) }

  lemma {:induction false} SplitIsFree(s: string, sep: char)
    ensures AllFree(Split(s, sep), sep)
  {
    if s != "" {
      SplitIsFree(s[..|s| - 1], sep);
    }
  }

  /** One more character. */
  lemma SplitSnoc(s: string, c: char, sep: char)
    ensures var parts := Split(s, sep);
            Split(s + [c], sep)
            == if c == sep then parts + [""] else parts[..|parts| - 1] + [parts[|parts| - 1] + [c]]
  {
    assert (s + [c])[..|s|] == s;
  }

  lemma FreeSnoc(init: string, c: char, sep: char)
    requires Free(init + [c], sep)
    ensures Free(init, sep) && c != sep
  {
    assert (init + [c])[|init|] == c;
  }

  /** The last of several parts grows by one character. */
  lemma GrownLast(front: seq<string>, last: string, c: char)
    ensures var parts := front + [last];
            parts[..|parts| - 1] + [parts[|parts| - 1] + [c]] == front + [last + [c]]
  {
  }

  lemma SplitStep(s: string, t: string, c: char, sep: char, front: seq<string>, last: string)
    requires Split(s + t, sep) == front + [last + t] && c != sep
    ensures Split(s + (t + [c]), sep) == front + [last + (t + [c])]
  {
    SplitSnoc(s + t, c, sep);
    GrownLast(front, last + t, c);
    assert s + (t + [c]) == (s + t) + [c];
    assert last + (t + [c]) == (last + t) + [c];
  }

  lemma {:induction false} SplitGrows(s: string, t: string, sep: char, front: seq<string>, last: string)
    requires Free(t, sep) && Split(s, sep) == front + [last]
    ensures Split(s + t, sep) == front + [last + t]
    decreases |t|
  {
    if t == "" {
      assert s + t == s && last + t == last;
    } else {
      var init, c := t[..|t| - 1], t[|t| - 1];
      assert t == init + [c];
      FreeSnoc(init, c, sep);
      SplitGrows(s, init, sep, front, last);
      SplitStep(s, init, c, sep, front, last);
    }
  }

  /** Text without a separator extends the last part. */
  lemma SplitExtend(s: string, t: string, sep: char)
    requires Free(t, sep)
    ensures var parts := Split(s, sep);
            Split(s + t, sep) == parts[..|parts| - 1] + [parts[|parts| - 1] + t]
  {
    var parts := Split(s, sep);
    assert parts == parts[..|parts| - 1] + [parts[|parts| - 1]];
    SplitGrows(s, t, sep, parts[..|parts| - 1], parts[|parts| - 1]);
  }

  /** Splitting undoes joining exactly for separator-free parts. */
  lemma {:induction false} SplitJoin(parts: seq<string>, sep: char)
    requires parts != []
    ensures Split(Join(parts, sep), sep) == parts <==> AllFree(parts, sep)
    decreases |parts|
  {
    if AllFree(parts, sep) {
      SplitJoinFree(parts, sep);
    } else {
      SplitIsFree(Join(parts, sep), sep);
    }
  }

  lemma SplitSeparator(s: string, sep: char)
    ensures Split(s + [sep], sep) == Split(s, sep) + [""]
  {
    assert (s + [sep])[..|s|] == s;
  }

  lemma {:induction false} SplitJoinFree(parts: seq<string>, sep: char)
    requires parts != [] && AllFree(parts, sep)
    ensures Split(Join(parts, sep), sep) == parts
    decreases |parts|
  {
    var k := |parts| - 1;
    var init, last := parts[..k], parts[k];
    assert Free(last, sep) && AllFree(init, sep);
    assert "" + last == last;
    assert parts == init + [last];
    if k == 0 {
      SplitExtend("", last, sep);
    } else {
      SplitJoinFree(init, sep);
      SplitSeparator(Join(init, sep), sep);
      SplitExtend(Join(init, sep) + [sep], last, sep);
      assert (init + [""])[..k] == init;
    }
  }

  lemma JoinSnoc(parts: seq<string>, last: string, sep: char)
    requires parts != []
    ensures Join(parts + [last], sep) == Join(parts, sep) + [sep] + last
  {
    assert (parts + [last])[..|parts|] == parts;
  }

  /** Extending the last part extends the joined string. */
  lemma JoinExtendLast(parts: seq<string>, c: char, sep: char)
    requires parts != []
    ensures Join(parts[..|parts| - 1] + [parts[|parts| - 1] + [c]], sep) == Join(parts, sep) + [c]
  {
    var init, last := parts[..|parts| - 1], parts[|parts| - 1];
    assert parts == init + [last];
    if init != [] {
      JoinSnoc(init, last, sep);
      JoinSnoc(init, last + [c], sep);
      assert Join(init, sep) + [sep] + (last + [c]) == Join(init, sep) + [sep] + last + [c];
    }
  }

  /** Joining undoes splitting. */
  lemma {:induction false} JoinSplit(s: string, sep: char)
    ensures Join(Split(s, sep), sep) == s
  {
    if s != "" {
      var init, c := s[..|s| - 1], s[|s| - 1];
      JoinSplit(init, sep);
      assert s == init + [c];
      if c == sep {
        JoinSnoc(Split(init, sep), "", sep);
        assert init + [sep] + "" == init + [sep];
      } else {
        JoinExtendLast(Split(init, sep), c, sep);
      }
    }
  }

  // ----- decimal numbers -----

  function Digit(d: nat): char
    requires d < 10
  {
    '0' + d as char
  }

  predicate IsDigit(c: char) { '0' <= c <= '9' }

  /** `u16::to_string`. */
  function ToDecimal(n: nat): (s: string)
    ensures s != "" && forall k :: 0 <= k < |s| ==> IsDigit(s[k])
  {
    if n < 10 then [Digit(n)] else ToDecimal(n / 10) + [Digit(n % 10)]
  }

  function DigitsValue(s: string): Option<nat> {
    if s == "" then Some(0)
    else
      match (DigitsValue(s[..|s| - 1]), s[|s| - 1])
      case (Some(v), c) => if IsDigit(c) then Some(10 * v + (c as int - '0' as int)) else None
      case (None, _) => None
  }

  /** `str::parse::<u16>`: an optional `+`, at least one digit, nothing else, no overflow. */
  function ParseU16(s: string): Option<u16> {
    var digits := if s != "" && s[0] == '+' then s[1..] else s;
    if digits == "" then None
    else
      match DigitsValue(digits)
      case Some(v) => if v < 0x1_0000 then Some(v) else None
      case None => None
  }

  lemma {:induction false} DecimalValue(n: nat)
    ensures DigitsValue(ToDecimal(n)) == Some(n)
  {
    if n < 10 {
      assert [Digit(n)][..0] == "";
      assert DigitsValue([Digit(n)]) == Some(n);
    } else {
      DecimalValue(n / 10);
      var s := ToDecimal(n);
      assert s[..|s| - 1] == ToDecimal(n / 10);
    }
  }

  lemma DecimalRoundTrip(n: u16)
    ensures ParseU16(ToDecimal(n)) == Some(n)
  {
    DecimalValue(n);
    assert IsDigit(ToDecimal(n)[0]);
  }

  function Zeros(z: nat): string { seq(z, _ => '0') }

  lemma {:induction false} ZerosAreNothing(z: nat)
    ensures DigitsValue(Zeros(z)) == Some(0)
  {
    if z > 0 {
      ZerosAreNothing(z - 1);
      assert Zeros(z)[..z - 1] == Zeros(z - 1);
    }
  }

  lemma {:induction false} PaddedValue(z: nat, n: nat)
    ensures DigitsValue(Zeros(z) + ToDecimal(n)) == Some(n)
  {
    var s := Zeros(z) + ToDecimal(n);
    if n < 10 {
      ZerosAreNothing(z);
      assert s[..|s| - 1] == Zeros(z);
    } else {
      PaddedValue(z, n / 10);
      assert s[..|s| - 1] == Zeros(z) + ToDecimal(n / 10);
    }
  }

  /** A string of digits is a padded decimal. */
  lemma {:induction false} DigitsArePadded(s: string) returns (z: nat)
    requires s != "" && DigitsValue(s).Some?
    ensures s == Zeros(z) + ToDecimal(DigitsValue(s).value)
  {
    var init, last := s[..|s| - 1], s[|s| - 1];
    assert last == Digit(last as int - '0' as int);
    assert s == init + [last];
    if init == "" {
      z := 0;
      assert s == Zeros(0) + ToDecimal(DigitsValue(s).value);
    } else {
      z := DigitsArePadded(init);
      if DigitsValue(init) == Some(0) {
        z := z + 1;
        assert init == Zeros(z - 1) + ['0'] == Zeros(z);
      }
    }
  }

  /** A port parses exactly from its decimal form, with any leading zeros and one plus sign at most. */
  lemma PortParsesExactly(s: string, n: u16)
    ensures ParseU16(s) == Some(n) <==>
              exists z: nat :: s == Zeros(z) + ToDecimal(n) || s == "+" + (Zeros(z) + ToDecimal(n))
  {
    if ParseU16(s) == Some(n) {
      var digits := if s != "" && s[0] == '+' then s[1..] else s;
      var z := DigitsArePadded(digits);
      assert s == Zeros(z) + ToDecimal(n) || s == "+" + (Zeros(z) + ToDecimal(n));
    }
    forall z: nat | s == Zeros(z) + ToDecimal(n) || s == "+" + (Zeros(z) + ToDecimal(n))
      ensures ParseU16(s) == Some(n)
    {
      PaddedValue(z, n);
      var digits := Zeros(z) + ToDecimal(n);
      assert digits[0] == if z > 0 then '0' else ToDecimal(n)[0];
      assert IsDigit(digits[0]);
      assert s == "+" + digits ==> s[1..] == digits;
    }
  }
}
