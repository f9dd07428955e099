/** `formatValue` of the Input component: the mask applied to every change of
    a text input before the new text is handed to the form.

    The phone, SSN and date branches are modelled twice: as the source writes
    them (`PhoneLayout`, `SsnLayout`, `DateLayout`) and as one data-driven
    template filler (`Fill` over a `Mask` chain). The two are proved equal,
    and idempotence, prefix monotonicity and the length bounds are proved once,
    about `Fill`. */
module InputFormat {
  import opened OnboardingSchema

  predicate IsDigit(c: char)
  {
    '0' <= c <= '9'
  }

  predicate AllDigits(s: string)
  {
    forall i :: 0 <= i < |s| ==> IsDigit(s[i])
  }

  /** `s.replace(/\D/g, '')`: the digits of `s`, in order. */
  function Digits(s: string): (d: string)
    ensures AllDigits(d) && |d| <= |s|
    ensures AllDigits(s) ==> d == s
  {
    if s == [] then []
    else (if IsDigit(s[0]) then [s[0]] else []) + Digits(s[1..])
  }

  /** `s.slice(0, n)`. */
  function Take(s: string, n: nat): (r: string)
    ensures |r| == if |s| <= n then |s| else n
    ensures r <= s
  {
    if |s| <= n then s else s[..n]
  }

  // ---------------------------------------------------------------------------
  // The branches as written

  /** The phone branch, `(XXX) XXX-XXXX`, on at most ten digits. */
  function PhoneLayout(d: string): (r: string)
    ensures d == [] <==> r == []
    ensures |r| == |d| + (if |d| >= 7 then 4 else if |d| >= 4 then 3 else if |d| > 0 then 1 else 0)
    ensures d != [] ==> r[0] == '('
  {
    if |d| >= 7 then "(" + d[..3] + ") " + d[3..6] + "-" + d[6..]
    else if |d| >= 4 then "(" + d[..3] + ") " + d[3..]
    else if |d| > 0 then "(" + d
    else d
  }

  /** The SSN branch, `XXX-XX-XXXX`, on at most nine digits. */
  function SsnLayout(d: string): (r: string)
    ensures |d| < 4 ==> r == d
    ensures |r| == |d| + (if |d| >= 6 then 2 else if |d| >= 4 then 1 else 0)
    ensures |d| >= 4 ==> r[..3] == d[..3] && r[3] == '-'
  {
    if |d| >= 6 then d[..3] + "-" + d[3..5] + "-" + d[5..]
    else if |d| >= 4 then d[..3] + "-" + d[3..]
    else d
  }

  /** The date branch, `XX/XX/XXXX`, on at most eight digits. */
  function DateLayout(d: string): (r: string)
    ensures |d| < 3 ==> r == d
    ensures |r| == |d| + (if |d| >= 5 then 2 else if |d| >= 3 then 1 else 0)
    ensures |d| >= 3 ==> r[..2] == d[..2] && r[2] == '/'
  {
    if |d| >= 5 then d[..2] + "/" + d[2..4] + "/" + d[4..]
    else if |d| >= 3 then d[..2] + "/" + d[2..]
    else d
  }

  /** `s.replace(/[^0-9.]/g, '')`. */
  function CurrencyChars(s: string): (r: string)
    ensures |r| <= |s|
    ensures forall i :: 0 <= i < |r| ==> IsDigit(r[i]) || r[i] == '.'
  {
    if s == [] then []
    else (if IsDigit(s[0]) || s[0] == '.' then [s[0]] else []) + CurrencyChars(s[1..])
  }

  /** Whether `parseFloat` of a non-empty string of digits and points yields a
      number rather than NaN: the string must open with a digit, or with a
      point followed by a digit. */
  predicate ParsesAsNumber(s: string)
  {
    |s| > 0 && (IsDigit(s[0]) || (s[0] == '.' && |s| > 1 && IsDigit(s[1])))
  }

  /** The currency branch. `amount` stands for `parseFloat` followed by the
      en-US `toLocaleString` with two fraction digits. */
  function FormatCurrency(text: string, amount: string -> string): (r: string)
    ensures r == text || (|r| > 0 && r[0] == '$')
    ensures CurrencyChars(text) == "" || CurrencyChars(text) == "." ==> r == text
  {
    var kept := CurrencyChars(text);
    if kept != "" && ParsesAsNumber(kept) then "$" + amount(kept) else text
  }

  predicate IsMasked(kind: FieldType)
  {
    kind == Phone || kind == Ssn || kind == Date
  }

  /** How many digits a masked field keeps. */
  function MaxDigits(kind: FieldType): nat
    requires IsMasked(kind)
  {
    match kind
    case Phone => 10
    case Ssn => 9
    case Date => 8
  }

  /** `formatValue(text)` of an input whose `type` is `kind`. Every other type,
      the unmasked `Tfn` and `Abn` included, passes the text through. */
  function FormatValue(kind: FieldType, text: string, amount: string -> string): (r: string)
    ensures !IsMasked(kind) && kind != Currency ==> r == text
  {
    match kind
    case Phone => PhoneLayout(Take(Digits(text), 10))
    case Ssn => SsnLayout(Take(Digits(text), 9))
    case Date => DateLayout(Take(Digits(text), 8))
    case Currency => FormatCurrency(text, amount)
    case _ => text
  }

  // ---------------------------------------------------------------------------
  // The reference: a mask as a chain of digit groups and separators

  datatype Mask = End | Group(width: nat, next: Mask) | Sep(text: string, next: Mask)

  /** Lays the digits `d` into `mask`: each group takes up to its width of
      digits, and a separator is written only while digits remain, so the
      output stops right after the last digit. */
  function Fill(mask: Mask, d: string): string
  {
    if d == [] then []
    else match mask
      case End => []
      case Sep(x, next) => x + Fill(next, d)
      case Group(w, next) => if |d| <= w then d else d[..w] + Fill(next, d[w..])
  }

  /** Digits the mask can hold. */
  function Capacity(mask: Mask): nat
  {
    match mask
    case End => 0
    case Group(w, next) => w + Capacity(next)
    case Sep(_, next) => Capacity(next)
  }

  /** Length of the mask fully filled. */
  function Width(mask: Mask): nat
  {
    match mask
    case End => 0
    case Group(w, next) => w + Width(next)
    case Sep(x, next) => |x| + Width(next)
  }

  predicate SeparatorsDigitFree(mask: Mask)
  {
    match mask
    case End => true
    case Group(_, next) => SeparatorsDigitFree(next)
    case Sep(x, next) => Digits(x) == "" && SeparatorsDigitFree(next)
  }

  /** Three digit groups of widths `w0`, `w1`, `w2` with the separators `x1`
      and `x2` between them. */
  function ThreeGroups(w0: nat, x1: string, w1: nat, x2: string, w2: nat): Mask
  {
    Group(w0, Sep(x1, Group(w1, Sep(x2, Group(w2, End)))))
  }

  const PhoneMask: Mask := Sep("(", ThreeGroups(3, ") ", 3, "-", 4))
  const SsnMask: Mask := ThreeGroups(3, "-", 2, "-", 4)
  const DateMask: Mask := ThreeGroups(2, "/", 2, "/", 4)

  function MaskOf(kind: FieldType): (mask: Mask)
    requires IsMasked(kind)
    ensures Capacity(mask) == MaxDigits(kind)
    ensures SeparatorsDigitFree(mask)
  {
    match kind
    case Phone => PhoneMask
    case Ssn => SsnMask
    case Date => DateMask
  }

  // ---------------------------------------------------------------------------
  // Lemmas

  lemma {:induction false} DigitsAppend(a: string, b: string)
    ensures Digits(a + b) == Digits(a) + Digits(b)
  {
    if a == [] {
      assert a + b == b;
    } else {
      assert (a + b)[1..] == a[1..] + b;
      DigitsAppend(a[1..], b);
    }
  }

  /** The digits of a filled mask are exactly the digits laid into it. */
  lemma {:induction false} FillKeepsDigits(mask: Mask, d: string)
    requires AllDigits(d) && SeparatorsDigitFree(mask) && |d| <= Capacity(mask)
    ensures Digits(Fill(mask, d)) == d
  {
    if d != [] {
      match mask
      case Sep(x, next) =>
        FillKeepsDigits(next, d);
        DigitsAppend(x, Fill(next, d));
      case Group(w, next) =>
        if |d| > w {
          FillKeepsDigits(next, d[w..]);
          DigitsAppend(d[..w], Fill(next, d[w..]));
          assert d[..w] + d[w..] == d;
        }
    }
  }

  /** More digits never take back a character already written. */
  lemma {:induction false} FillMonotone(mask: Mask, d1: string, d2: string)
    requires d1 <= d2
    ensures Fill(mask, d1) <= Fill(mask, d2)
  {
    if d1 != [] {
      match mask
      case End =>
      case Sep(x, next) =>
        FillMonotone(next, d1, d2);
      case Group(w, next) =>
        if |d2| <= w {
        } else if |d1| <= w {
          assert d1 <= d2[..w];
        } else {
          assert d1[..w] == d2[..w];
          assert d1[w..] <= d2[w..];
          FillMonotone(next, d1[w..], d2[w..]);
        }
    }
  }

  /** A filled mask is never longer than the mask. */
  lemma {:induction false} FillWidth(mask: Mask, d: string)
    ensures |Fill(mask, d)| <= Width(mask)
  {
    if d != [] {
      match mask
      case End =>
      case Sep(x, next) =>
        FillWidth(next, d);
      case Group(w, next) =>
        if |d| > w {
          FillWidth(next, d[w..]);
        }
    }
  }

  lemma Assoc(a: string, b: string, c: string)
    ensures a + (b + c) == a + b + c
  {
  }

  lemma Prepend3(p: string, a: string, b: string, c: string)
    ensures p + (a + b + c) == p + a + b + c
  {
    Assoc(p, a + b, c);
    Assoc(p, a, b);
  }

  lemma Prepend4(p: string, a: string, b: string, c: string, d: string)
    ensures p + (a + b + c + d) == p + a + b + c + d
  {
    Assoc(p, a + b + c, d);
    Prepend3(p, a, b, c);
  }

  lemma Prepend5(p: string, a: string, b: string, c: string, d: string, e: string)
    ensures p + (a + b + c + d + e) == p + a + b + c + d + e
  {
    Assoc(p, a + b + c + d, e);
    Prepend4(p, a, b, c, d);
  }

  lemma FillGroupShort(w: nat, next: Mask, d: string)
    requires |d| <= w
    ensures Fill(Group(w, next), d) == d
  {
  }

  lemma FillGroupLong(w: nat, next: Mask, d: string)
    requires w < |d|
    ensures Fill(Group(w, next), d) == d[..w] + Fill(next, d[w..])
  {
  }

  lemma FillSepStep(x: string, next: Mask, d: string)
    requires d != []
    ensures Fill(Sep(x, next), d) == x + Fill(next, d)
  {
  }

  /** `Fill` over `ThreeGroups`, branch by branch. */
  lemma ThreeGroupFill(w0: nat, x1: string, w1: nat, x2: string, w2: nat, d: string)
    requires 0 < |d| <= w0 + w1 + w2
    ensures |d| <= w0 ==> Fill(ThreeGroups(w0, x1, w1, x2, w2), d) == d
    ensures w0 < |d| <= w0 + w1 ==>
              Fill(ThreeGroups(w0, x1, w1, x2, w2), d) == d[..w0] + x1 + d[w0..]
    ensures w0 + w1 < |d| ==>
              Fill(ThreeGroups(w0, x1, w1, x2, w2), d)
              == d[..w0] + x1 + d[w0..w0 + w1] + x2 + d[w0 + w1..]
  {
    var g2 := Group(w2, End);
    var s2 := Sep(x2, g2);
    var g1 := Group(w1, s2);
    var s1 := Sep(x1, g1);
    assert ThreeGroups(w0, x1, w1, x2, w2) == Group(w0, s1);
    if |d| <= w0 {
      FillGroupShort(w0, s1, d);
    } else {
      var e := d[w0..];
      FillGroupLong(w0, s1, d);
      FillSepStep(x1, g1, e);
      if |e| <= w1 {
        FillGroupShort(w1, s2, e);
        Assoc(d[..w0], x1, e);
      } else {
        var f := e[w1..];
        FillGroupLong(w1, s2, e);
        FillSepStep(x2, g2, f);
        FillGroupShort(w2, End, f);
        assert e[..w1] == d[w0..w0 + w1] && f == d[w0 + w1..];
        Assoc(e[..w1], x2, f);
        Prepend3(x1, e[..w1], x2, f);
        Prepend4(d[..w0], x1, e[..w1], x2, f);
      }
    }
  }

  /** The phone branch as written is the mask `(ddd) ddd-dddd`. */
  lemma PhoneLayoutIsMask(d: string)
    requires |d| <= 10
    ensures PhoneLayout(d) == Fill(PhoneMask, d)
  {
    if d != [] {
      FillSepStep("(", ThreeGroups(3, ") ", 3, "-", 4), d);
      ThreeGroupFill(3, ") ", 3, "-", 4, d);
      if |d| >= 7 {
        Prepend5("(", d[..3], ") ", d[3..6], "-", d[6..]);
      } else if |d| >= 4 {
        Prepend3("(", d[..3], ") ", d[3..]);
      }
    }
  }

  /** The SSN branch as written is the mask `ddd-dd-dddd`. */
  lemma SsnLayoutIsMask(d: string)
    requires |d| <= 9
    ensures SsnLayout(d) == Fill(SsnMask, d)
  {
    if d != [] {
      ThreeGroupFill(3, "-", 2, "-", 4, d);
    }
  }

  /** The date branch as written is the mask `dd/dd/dddd`. */
  lemma DateLayoutIsMask(d: string)
    requires |d| <= 8
    ensures DateLayout(d) == Fill(DateMask, d)
  {
    if d != [] {
      ThreeGroupFill(2, "/", 2, "/", 4, d);
    }
  }

  /** A masked input shows its mask filled with the first `MaxDigits` digits
      of the text; every other character of the text is dropped. */
  lemma FormatIsMask(kind: FieldType, text: string, amount: string -> string)
    requires IsMasked(kind)
    ensures FormatValue(kind, text, amount) == Fill(MaskOf(kind), Take(Digits(text), MaxDigits(kind)))
  {
    var d := Take(Digits(text), MaxDigits(kind));
    match kind
    case Phone => PhoneLayoutIsMask(d);
    case Ssn => SsnLayoutIsMask(d);
    case Date => DateLayoutIsMask(d);
  }

  /** The digits shown by a masked input are the first `MaxDigits` digits typed. */
  lemma FormatKeepsLeadingDigits(kind: FieldType, text: string, amount: string -> string)
    requires IsMasked(kind)
    ensures Digits(FormatValue(kind, text, amount)) == Take(Digits(text), MaxDigits(kind))
  {
    FormatIsMask(kind, text, amount);
    FillKeepsDigits(MaskOf(kind), Take(Digits(text), MaxDigits(kind)));
  }

  /** A masked input depends only on the first `MaxDigits` digits of the text. */
  lemma FormatDependsOnLeadingDigits(kind: FieldType, text: string, amount: string -> string)
    requires IsMasked(kind)
    ensures FormatValue(kind, text, amount) == FormatValue(kind, Take(Digits(text), MaxDigits(kind)), amount)
  {
    var d := Take(Digits(text), MaxDigits(kind));
    FormatIsMask(kind, text, amount);
    FormatIsMask(kind, d, amount);
    assert Digits(d) == d;
    assert Take(d, MaxDigits(kind)) == d;
  }

  /** Formatting is idempotent for every type but currency: re-running the
      mask on its own output, as every keystroke does, changes nothing. */
  lemma FormatIdempotent(kind: FieldType, text: string, amount: string -> string)
    requires kind != Currency
    ensures FormatValue(kind, FormatValue(kind, text, amount), amount) == FormatValue(kind, text, amount)
  {
    if IsMasked(kind) {
      var once := FormatValue(kind, text, amount);
      FormatKeepsLeadingDigits(kind, text, amount);
      FormatIsMask(kind, text, amount);
      FormatIsMask(kind, once, amount);
      assert Take(Digits(once), MaxDigits(kind)) == Take(Digits(text), MaxDigits(kind));
    }
  }

  /** Typing more digits only extends a masked value: when the digits of
      `s1` are a prefix of those of `s2`, so is the formatted text. */
  lemma FormatMonotone(kind: FieldType, s1: string, s2: string, amount: string -> string)
    requires IsMasked(kind)
    requires Digits(s1) <= Digits(s2)
    ensures FormatValue(kind, s1, amount) <= FormatValue(kind, s2, amount)
  {
    var n := MaxDigits(kind);
    var d1, d2 := Take(Digits(s1), n), Take(Digits(s2), n);
    assert d1 <= d2;
    FormatIsMask(kind, s1, amount);
    FormatIsMask(kind, s2, amount);
    FillMonotone(MaskOf(kind), d1, d2);
  }

  /** Length bounds: a phone is at most 14 characters, an SSN 11, a date 10. */
  lemma FormatLengthBound(kind: FieldType, text: string, amount: string -> string)
    requires IsMasked(kind)
    ensures |FormatValue(kind, text, amount)| <= (match kind case Phone => 14 case Ssn => 11 case _ => 10)
  {
    FormatIsMask(kind, text, amount);
    FillWidth(MaskOf(kind), Take(Digits(text), MaxDigits(kind)));
  }
}
