/**
 * The Brazilian mobile-number mask of the signup and profile forms: keep the
 * digits of what was typed and lay them out as `(DD) DDDDD-DDDD`; above eleven
 * digits the field keeps its previous value.
 *
 * The two regular-expression replacements are modelled as written (an anchored
 * area-code match, then the leftmost run of six digits), and the familiar
 * closed form is proved about them.
 */
module PhoneMask {
  import opened Common

  /** `\d` without the unicode flag: an ASCII digit. */
  predicate IsDigit(c: char)
  {
    '0' <= c <= '9'
  }

  predicate AllDigits(s: string)
  {
    forall i :: 0 <= i < |s| ==> IsDigit(s[i])
  }

  /** `value.replace(/\D/g, "")`: the digits of `s`, in order. */
  function StripNonDigits(s: string): (r: string)
    ensures AllDigits(r) && |r| <= |s|
    ensures AllDigits(s) ==> r == s
  {
    if s == [] then [] else (if IsDigit(s[0]) then [s[0]] else []) + StripNonDigits(s[1..])
  }

  /** `.replace(/^(\d{2})(\d)/g, "($1) $2")`: anchored, so it can only match at the start. */
  function WrapAreaCode(s: string): (r: string)
    ensures StripNonDigits(r) == StripNonDigits(s)
    ensures |r| <= |s| + 3
  {
    if |s| >= 3 && IsDigit(s[0]) && IsDigit(s[1]) && IsDigit(s[2]) then
      StripAreaCode(s[..2]);
      StripConcat("(" + s[..2] + ") ", s[2..]);
      StripConcat(s[..2], s[2..]);
      assert s[..2] + s[2..] == s;
      "(" + s[..2] + ") " + s[2..]
    else s
  }

  predicate SixDigitsAt(s: string, i: nat)
    requires i + 6 <= |s|
  {
    AllDigits(s[i..i + 6])
  }

  /** The leftmost offset, from `from` on, where `(\d{5})(\d)` matches. */
  function FindSixDigitRun(s: string, from: nat): (r: Option<nat>)
    decreases |s| - from
    ensures r.Some? ==> from <= r.value && r.value + 6 <= |s| && SixDigitsAt(s, r.value)
    ensures r.Some? ==> forall j: nat :: from <= j < r.value ==> !SixDigitsAt(s, j)
    ensures r.None? ==> forall j: nat :: from <= j && j + 6 <= |s| ==> !SixDigitsAt(s, j)
  {
    if from + 6 > |s| then None
    else if SixDigitsAt(s, from) then Some(from)
    else FindSixDigitRun(s, from + 1)
  }

  /** `.replace(/(\d{5})(\d)/, "$1-$2")`: a hyphen after the first five digits of the leftmost run of six. */
  function HyphenateFirstRun(s: string): (r: string)
    ensures StripNonDigits(r) == StripNonDigits(s)
    ensures |r| <= |s| + 1
  {
    match FindSixDigitRun(s, 0)
    case None => s
    case Some(i) =>
      StripHyphenated(s[..i + 5], s[i + 5..]);
      StripConcat(s[..i + 5], s[i + 5..]);
      assert s[..i + 5] + s[i + 5..] == s;
      s[..i + 5] + "-" + s[i + 5..]
  }

  /** `formatPhone` of the signup page (and, identically, of the profile page). */
  function FormatPhone(phone: string, value: string): (r: string)
    ensures |StripNonDigits(value)| <= 11 ==> StripNonDigits(r) == StripNonDigits(value)
    ensures |StripNonDigits(value)| > 11 ==> r == phone
  {
    var numbers := StripNonDigits(value);
    if |numbers| <= 11 then HyphenateFirstRun(WrapAreaCode(numbers)) else phone
  }

  /** The mask as one reads it off the input's placeholder "(99) 99999-9999". */
  function Mask(n: string): (r: string)
    requires AllDigits(n)
  {
    if |n| <= 2 then n
    else if |n| <= 7 then "(" + n[..2] + ") " + n[2..]
    else "(" + n[..2] + ") " + n[2..7] + "-" + n[7..]
  }

  /** A field value that the mask itself could have produced. */
  predicate WellFormed(phone: string)
  {
    var n := StripNonDigits(phone);
    |n| <= 11 && phone == Mask(n)
  }

  lemma NoRunThroughSpace(w: string, j: nat)
    requires j + 6 <= |w| && j <= 4 && w[4] == ' '
    ensures !SixDigitsAt(w, j)
  {
    assert w[j..j + 6][4 - j] == ' ';
  }

  /** The two replacements produce exactly the closed-form mask. */
  lemma {:induction false} RegexChainIsMask(n: string)
    requires AllDigits(n) && |n| <= 11
    ensures HyphenateFirstRun(WrapAreaCode(n)) == Mask(n)
  {
    var w := WrapAreaCode(n);
    if |n| <= 2 {
      assert w == n;
      assert FindSixDigitRun(w, 0).None?;
    } else {
      assert IsDigit(n[0]) && IsDigit(n[1]) && IsDigit(n[2]);
      assert w == "(" + n[..2] + ") " + n[2..];
      assert w[4] == ' ';
      if |n| <= 7 {
        match FindSixDigitRun(w, 0)
        case None =>
        case Some(i) =>
          NoRunThroughSpace(w, i);
          assert false;
      } else {
        assert w[5..11] == n[2..8];
        assert SixDigitsAt(w, 5);
        match FindSixDigitRun(w, 0)
        case None =>
          assert false;
        case Some(i) =>
          if i < 5 {
            NoRunThroughSpace(w, i);
          }
          assert i == 5;
          assert w[..10] == "(" + n[..2] + ") " + n[2..7];
          assert w[10..] == n[7..];
      }
    }
  }

  lemma {:induction false} StripConcat(a: string, b: string)
    ensures StripNonDigits(a + b) == StripNonDigits(a) + StripNonDigits(b)
  {
    if a == [] {
      assert a + b == b;
    } else {
      assert (a + b)[1..] == a[1..] + b;
      StripConcat(a[1..], b);
    }
  }

  lemma {:induction false} StripAreaCode(area: string)
    requires AllDigits(area)
    ensures StripNonDigits("(" + area + ") ") == area
  {
    StripConcat("(", area);
    StripConcat("(" + area, ") ");
    assert StripNonDigits("(") == [];
    assert StripNonDigits(") ") == [];
  }

  lemma {:induction false} StripHyphenated(left: string, right: string)
    ensures StripNonDigits(left + "-" + right) == StripNonDigits(left) + StripNonDigits(right)
  {
    StripConcat(left, "-");
    StripConcat(left + "-", right);
    assert StripNonDigits("-") == [];
  }

  /** Removing the punctuation from the mask gives back exactly the digits. */
  lemma MaskKeepsDigits(n: string)
    requires AllDigits(n)
    ensures StripNonDigits(Mask(n)) == n
  {
    if 2 < |n| <= 7 {
      MaskKeepsDigitsShort(n);
    } else if |n| > 7 {
      MaskKeepsDigitsLong(n);
    }
  }

  lemma MaskKeepsDigitsShort(n: string)
    requires AllDigits(n) && 2 < |n| <= 7
    ensures StripNonDigits(Mask(n)) == n
  {
    var head, rest := "(" + n[..2] + ") ", n[2..];
    assert Mask(n) == head + rest;
    StripAreaCode(n[..2]);
    StripConcat(head, rest);
    assert AllDigits(rest);
    assert n == n[..2] + rest;
  }

  lemma MaskKeepsDigitsLong(n: string)
    requires AllDigits(n) && |n| > 7
    ensures StripNonDigits(Mask(n)) == n
  {
    var head, mid, tail := "(" + n[..2] + ") ", n[2..7], n[7..];
    assert Mask(n) == (head + mid) + "-" + tail;
    StripAreaCode(n[..2]);
    StripHyphenated(head + mid, tail);
    StripConcat(head, mid);
    assert AllDigits(mid) && AllDigits(tail);
    assert n == n[..2] + mid + tail;
  }

  /** Up to eleven digits the output is the mask of the input's digits. */
  lemma FormatIsMask(phone: string, value: string)
    requires |StripNonDigits(value)| <= 11
    ensures FormatPhone(phone, value) == Mask(StripNonDigits(value))
  {
    RegexChainIsMask(StripNonDigits(value));
  }

  /** The output fits the input's maxLength of 15 and never exceeds the typed length by more than 4. */
  lemma FormatLength(phone: string, value: string)
    requires |StripNonDigits(value)| <= 11
    ensures |FormatPhone(phone, value)| <= 15
    ensures |FormatPhone(phone, value)| <= |StripNonDigits(value)| + 4
  {
    FormatIsMask(phone, value);
  }

  /** Eleven digits give `(DD) DDDDD-DDDD`. */
  lemma ElevenDigitsShape(phone: string, value: string)
    requires |StripNonDigits(value)| == 11
    ensures var r := FormatPhone(phone, value);
      |r| == 15 && r[0] == '(' && r[3] == ')' && r[4] == ' ' && r[10] == '-'
      && AllDigits(r[1..3]) && AllDigits(r[5..10]) && AllDigits(r[11..])
  {
    FormatIsMask(phone, value);
    var n := StripNonDigits(value);
    var r := FormatPhone(phone, value);
    assert r[1..3] == n[..2] && r[5..10] == n[2..7] && r[11..] == n[7..];
  }

  /** Every value the mask produces is well formed. */
  lemma FormatWellFormed(phone: string, value: string)
    requires WellFormed(phone)
    ensures WellFormed(FormatPhone(phone, value))
  {
    var n := StripNonDigits(value);
    if |n| <= 11 {
      FormatIsMask(phone, value);
    }
  }

  /** Formatting an already formatted value again changes nothing. */
  lemma FormatIdempotent(phone: string, value: string)
    requires WellFormed(phone)
    ensures FormatPhone(phone, FormatPhone(phone, value)) == FormatPhone(phone, value)
  {
    var once := FormatPhone(phone, value);
    FormatWellFormed(phone, value);
    FormatIsMask(phone, once);
  }
}
