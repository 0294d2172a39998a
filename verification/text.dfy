/** The string handling the sections share: decimal row ids, the "id: label" strings
    that every selector offers, how handlers recover the id with
    `int(text.split(':')[0])`, and Python's `str.strip`. */
module Text {

  predicate IsDigit(c: char)
  {
    '0' <= c <= '9'
  }

  function DigitChar(d: nat): (c: char)
    requires d < 10
    ensures IsDigit(c)
  {
    ('0' as int + d) as char
  }

  function DigitValue(c: char): nat
    requires IsDigit(c)
  {
    c as int - '0' as int
  }

  /** The decimal rendering of a row id, as `f"{id}"` gives it. */
  function NatToString(n: nat): string
    decreases n
  {
    if n < 10 then [DigitChar(n)] else NatToString(n / 10) + [DigitChar(n % 10)]
  }

  /** The strings `int()` accepts in this model: one or more ASCII digits. */
  predicate IsDecimal(s: string)
  {
    |s| > 0 && forall i :: 0 <= i < |s| ==> IsDigit(s[i])
  }

  function DecimalValue(s: string): nat
    requires forall i :: 0 <= i < |s| ==> IsDigit(s[i])
  {
    if |s| == 0 then 0 else DecimalValue(s[..|s| - 1]) * 10 + DigitValue(s[|s| - 1])
  }

  /** Rendering an id and reading it back gives the id again. */
  lemma {:induction false} DecimalRoundTrip(n: nat)
    ensures IsDecimal(NatToString(n))
    ensures DecimalValue(NatToString(n)) == n
    decreases n
  {
    if n >= 10 {
      DecimalRoundTrip(n / 10);
      var s := NatToString(n);
      assert s[..|s| - 1] == NatToString(n / 10);
    }
  }

  /** The position of the first occurrence of c (what `split(c)[0]` stops at). */
  function IndexOf(s: string, c: char): (i: nat)
    requires c in s
    ensures i < |s| && s[i] == c && c !in s[..i]
  {
    if s[0] == c then 0 else 1 + IndexOf(s[1..], c)
  }

  /** `s.split(c)[0]`: everything before the first c, or all of s. */
  function Before(s: string, c: char): (r: string)
    ensures c !in r
  {
    if c in s then s[..IndexOf(s, c)] else s
  }

  /** Everything after the first c; `s.split(c)[1]` is `Before(After(s, c), c)`. */
  function After(s: string, c: char): string
    requires c in s
  {
    s[IndexOf(s, c) + 1..]
  }

  /** What a handler makes of a selector's current text: no ':' means nothing was
      selected (the handler returns early); a head that `int()` rejects raises, which
      aborts the handler; otherwise the head is the selected row id. */
  datatype Selection = Unselected | Malformed | Selected(id: nat)

  function ParseSelection(text: string): Selection
  {
    if ':' !in text then Unselected
    else
      var head := Before(text, ':');
      if IsDecimal(head) then Selected(DecimalValue(head)) else Malformed
  }

  /** The "id: text" strings that the selectors offer. */
  function SelectorLabel(id: nat, text: string): string
  {
    NatToString(id) + ": " + text
  }

  lemma NoColonInDigits(n: nat)
    ensures ':' !in NatToString(n)
  {
    DecimalRoundTrip(n);
  }

  lemma IndexOfAfterPrefix(a: string, b: string, c: char)
    requires c !in a && c in b
    ensures c in a + b && IndexOf(a + b, c) == |a| + IndexOf(b, c)
  {
    var s := a + b;
    var i := IndexOf(b, c);
    assert s[|a| + i] == c;
    assert s[..|a| + i] == a + b[..i];
  }

  /** Every selector label reads back as the id it was made from, whatever its text. */
  lemma LabelRoundTrip(id: nat, text: string)
    ensures ParseSelection(SelectorLabel(id, text)) == Selected(id)
  {
    var digits := NatToString(id);
    NoColonInDigits(id);
    DecimalRoundTrip(id);
    IndexOfAfterPrefix(digits, ": " + text, ':');
    assert SelectorLabel(id, text) == digits + (": " + text);
    assert Before(SelectorLabel(id, text), ':') == digits;
  }

  /** The ASCII characters `str.strip()` removes: space, tab, line feed, vertical
      tab, form feed, carriage return and the four separators 0x1C to 0x1F. */
  predicate IsSpace(c: char)
  {
    c == ' ' || c == '\t' || c == '\n' || c == '\r' || c == 11 as char || c == 12 as char
    || (28 as char <= c <= 31 as char)
  }

  function TrimLeft(s: string): string
  {
    if |s| > 0 && IsSpace(s[0]) then TrimLeft(s[1..]) else s
  }

  function TrimRight(s: string): string
  {
    if |s| > 0 && IsSpace(s[|s| - 1]) then TrimRight(s[..|s| - 1]) else s
  }

  /** `str.strip()`: no leading or trailing whitespace is left, nothing inside changes. */
  function Strip(s: string): (r: string)
  {
    TrimRight(TrimLeft(s))
  }

  /** `lstrip()` drops exactly the leading whitespace: what is left is a suffix of the
      input that does not start with whitespace, and everything dropped is whitespace. */
  lemma {:induction false} TrimLeftSpec(s: string)
    ensures |TrimLeft(s)| <= |s| && TrimLeft(s) == s[|s| - |TrimLeft(s)|..]
    ensures |TrimLeft(s)| == 0 || !IsSpace(TrimLeft(s)[0])
    ensures forall i :: 0 <= i < |s| - |TrimLeft(s)| ==> IsSpace(s[i])
    decreases |s|
  {
    if |s| > 0 && IsSpace(s[0]) {
      var p := s[1..];
      TrimLeftSpec(p);
      assert TrimLeft(s) == TrimLeft(p);
      assert p[|p| - |TrimLeft(p)|..] == s[|s| - |TrimLeft(s)|..];
      forall i | 0 <= i < |s| - |TrimLeft(s)| ensures IsSpace(s[i]) {
        if i > 0 { assert s[i] == p[i - 1]; }
      }
    } else {
      assert s[0..] == s;
    }
  }

  /** `rstrip()` drops exactly the trailing whitespace. */
  lemma {:induction false} TrimRightSpec(s: string)
    ensures |TrimRight(s)| <= |s| && TrimRight(s) == s[..|TrimRight(s)|]
    ensures |TrimRight(s)| == 0 || !IsSpace(TrimRight(s)[|TrimRight(s)| - 1])
    ensures forall i :: |TrimRight(s)| <= i < |s| ==> IsSpace(s[i])
    decreases |s|
  {
    if |s| > 0 && IsSpace(s[|s| - 1]) {
      var p := s[..|s| - 1];
      TrimRightSpec(p);
      assert TrimRight(s) == TrimRight(p);
      assert p[..|TrimRight(p)|] == s[..|TrimRight(s)|];
      forall i | |TrimRight(s)| <= i < |s| ensures IsSpace(s[i]) {
        if i < |p| { assert s[i] == p[i]; }
      }
    } else {
      assert s[..|s|] == s;
    }
  }

  /** Stripping leaves no surrounding whitespace and keeps a contiguous piece of the
      input, with only whitespace cut away on either side. */
  lemma StripSpec(s: string)
    ensures var r := Strip(s);
            (|r| == 0 || (!IsSpace(r[0]) && !IsSpace(r[|r| - 1])))
            && exists i, j :: 0 <= i <= j <= |s| && r == s[i..j]
                              && (forall m :: 0 <= m < i ==> IsSpace(s[m]))
                              && (forall m :: j <= m < |s| ==> IsSpace(s[m]))
  {
    var t := TrimLeft(s);
    TrimLeftSpec(s);
    var r := TrimRight(t);
    TrimRightSpec(t);
    var i := |s| - |t|;
    var j := i + |r|;
    assert t == s[i..];
    assert r == t[..|r|];
    assert r == s[i..j];
    forall m | j <= m < |s| ensures IsSpace(s[m]) {
      assert s[m] == t[m - i];
    }
    if |r| > 0 {
      assert r[0] == t[0];
    }
    assert Strip(s) == r;
  }

  /** A text with no surrounding whitespace survives `strip()` of itself padded by
      single spaces, as the salon service label pads the service name. */
  lemma StripPadded(name: string)
    requires |name| == 0 || (!IsSpace(name[0]) && !IsSpace(name[|name| - 1]))
    ensures Strip(" " + name + " ") == name
  {
    var padded := " " + name + " ";
    assert padded[1..] == name + " ";
    if |name| == 0 {
      assert padded == "  " && padded[1..] == " " && " "[1..] == "";
      assert IsSpace(padded[0]) && IsSpace(" "[0]);
      assert TrimLeft(" ") == TrimLeft("") == "";
      assert TrimLeft(padded) == TrimLeft(" ");
    } else {
      assert TrimLeft(name + " ") == name + " ";
      assert (name + " ")[..|name|] == name;
    }
  }
}
